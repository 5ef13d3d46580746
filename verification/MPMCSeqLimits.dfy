/**
 What MPMCSeq does not promise: a producer that stopped after its claim hides later items, so
 a Dequeue can refuse although an earlier Enqueue has returned.
 */
module MPMCSeqLimits {
  import opened Ring
  import opened MPMCSeq
  import Fifo = BoundedFifo
  import Proof = MPMCSeqProof

  /** Two steps of thread `e.t` lead from `q` to `r` and show `shown`. */
  predicate Pair(q: Queue, e: Event, r: Queue, shown: seq<Fifo.Action<nat>>)
    requires Wf(q)
  {
    r == Step(Step(q, e), e) && shown == Shown(q, e) + Shown(Step(q, e), e)
  }

  function Twice(e: Event, rest: seq<Event>): seq<Event> {
    [e] + ([e] + rest)
  }

  lemma OneTrace(q: Queue, e: Event, rest: seq<Event>)
    requires Wf(q)
    ensures Trace(q, [e] + rest) == Shown(q, e) + Trace(Step(q, e), rest)
  {
    assert ([e] + rest)[1..] == rest;
  }

  lemma PairTrace(q: Queue, e: Event, r: Queue, shown: seq<Fifo.Action<nat>>, rest: seq<Event>)
    requires Wf(q) && Wf(r) && Pair(q, e, r, shown)
    ensures Trace(q, Twice(e, rest)) == shown + Trace(r, rest)
  {
    var a, b, c := Shown(q, e), Shown(Step(q, e), e), Trace(r, rest);
    assert Trace(Step(q, e), [e] + rest) == b + c by { OneTrace(Step(q, e), e, rest); }
    assert Trace(q, Twice(e, rest)) == a + (b + c) by { OneTrace(q, e, [e] + rest); }
    Fifo.Associates(a, b, c);
  }

  /** Four steps, the last two silent. */
  lemma PairsTrace(q: Queue, e: Event, mid: Queue, r: Queue, shown: seq<Fifo.Action<nat>>, rest: seq<Event>)
    requires Wf(q) && Wf(mid) && Wf(r) && Pair(q, e, mid, shown) && Pair(mid, e, r, [])
    ensures Trace(q, Twice(e, Twice(e, rest))) == shown + Trace(r, rest)
  {
    var s := Twice(e, rest);
    assert Trace(mid, s) == Trace(r, rest) by {
      PairTrace(mid, e, r, [], rest);
      NothingShown(Trace(r, rest));
    }
    assert Trace(q, Twice(e, s)) == shown + Trace(mid, s) by { PairTrace(q, e, mid, shown, s); }
  }

  lemma NothingShown(a: seq<Fifo.Action<nat>>)
    ensures [] + a == a
  {
  }

  lemma SetTwice(q: Queue, t: nat, a: Local, b: Local)
    requires t < |q.th|
    ensures Goto(Goto(q, t, a), t, b) == Goto(q, t, b)
  {
    assert q.th[t := a][t := b] == q.th[t := b];
  }

  function Loaded(q: Queue, t: nat, v: nat): Queue
    requires t < |q.th|
  {
    Goto(q, t, EnqLoadNum(v, q.tail))
  }

  function Claimed(q: Queue, t: nat, v: nat): Queue
    requires t < |q.th|
  {
    Goto(q, t, EnqWrite(v, q.tail)).(tail := q.tail + 1)
  }

  lemma ClaimStates(q: Queue, t: nat, v: nat)
    requires Wf(q) && t < |q.th| && q.th[t].Resting? && Num(q, q.tail) == q.tail
    ensures Pair(q, Event(t, Fifo.Enq(v)), Loaded(q, t, v), [Fifo.Call(t, Fifo.Enq(v))])
    ensures Pair(Loaded(q, t, v), Event(t, Fifo.Enq(v)), Claimed(q, t, v), [])
  {
    SetTwice(q, t, EnqLoadTail(v), EnqLoadNum(v, q.tail));
    SetTwice(q, t, EnqLoadNum(v, q.tail), EnqClaim(v, q.tail));
    SetTwice(q, t, EnqClaim(v, q.tail), EnqWrite(v, q.tail));
  }

  /** A lone Enqueue up to its claim. */
  lemma ClaimTrace(q: Queue, t: nat, v: nat, rest: seq<Event>) returns (s: seq<Event>)
    requires Wf(q) && t < |q.th| && q.th[t].Resting? && Num(q, q.tail) == q.tail
    ensures Trace(q, s) == [Fifo.Call(t, Fifo.Enq(v))] + Trace(Claimed(q, t, v), rest)
  {
    var e := Event(t, Fifo.Enq(v));
    s := Twice(e, Twice(e, rest));
    ClaimStates(q, t, v);
    PairsTrace(q, e, Loaded(q, t, v), Claimed(q, t, v), [Fifo.Call(t, Fifo.Enq(v))], rest);
  }

  lemma ReturnTrace(q: Queue, t: nat, res: Res, rest: seq<Event>)
    requires Wf(q) && t < |q.th| && q.th[t].Resting?
    ensures Trace(Goto(q, t, Returning(res)), [Event(t, Fifo.Deq)] + rest) == [Fifo.Return(t, res)] + Trace(q, rest)
  {
    OneTrace(Goto(q, t, Returning(res)), Event(t, Fifo.Deq), rest);
    assert q.th[t := Returning(res)][t := Resting] == q.th;
    assert Step(Goto(q, t, Returning(res)), Event(t, Fifo.Deq)) == q;
  }

  /** The rest of an Enqueue that has claimed position `p`. */
  lemma StoreTrace(q: Queue, t: nat, v: nat, p: nat, rest: seq<Event>) returns (s: seq<Event>)
    requires Wf(q) && t < |q.th| && q.th[t].Resting?
    ensures Trace(Goto(q, t, EnqWrite(v, p)), s) ==
      [Fifo.Return(t, Fifo.Ok)] + Trace(SetNum(SetData(q, p, v), p, p + 1), rest)
  {
    var e := Event(t, Fifo.Enq(v));
    var r := SetNum(SetData(q, p, v), p, p + 1);
    var q1, q2 := Goto(q, t, EnqWrite(v, p)), Goto(r, t, Returning(Fifo.Ok));
    var s1 := [Event(t, Fifo.Deq)] + rest;
    s := Twice(e, s1);
    assert Pair(q1, e, q2, []) by {
      SetTwice(q, t, EnqWrite(v, p), EnqPublish(v, p));
      SetTwice(q, t, EnqPublish(v, p), Returning(Fifo.Ok));
    }
    PairTrace(q1, e, q2, [], s1);
    ReturnTrace(r, t, Fifo.Ok, rest);
  }

  lemma RefusedTrace(q: Queue, t: nat) returns (s: seq<Event>)
    requires Wf(q) && t < |q.th| && q.th[t].Resting? && Num(q, q.head) < q.head + 1
    ensures Trace(q, s) == [Fifo.Call(t, Fifo.Deq), Fifo.Return(t, Fifo.WouldBlock)]
  {
    var e := Event(t, Fifo.Deq);
    var q1, q2 := Goto(q, t, DeqLoadNum(q.head)), Goto(q, t, Returning(Fifo.WouldBlock));
    var s2 := [e] + [];
    var s1 := [e] + s2;
    s := Twice(e, s1);
    assert Pair(q, e, q1, [Fifo.Call(t, Fifo.Deq)]) by { SetTwice(q, t, DeqLoadHead, DeqLoadNum(q.head)); }
    assert Step(q1, e) == q2 by { SetTwice(q, t, DeqLoadNum(q.head), Returning(Fifo.WouldBlock)); }
    PairTrace(q, e, q1, [Fifo.Call(t, Fifo.Deq)], s1);
    OneTrace(q1, e, s2);
    ReturnTrace(q, t, Fifo.WouldBlock, []);
  }

  /** `a` claims and stops; `b` enqueues and returns; `c`, which may be `b` itself, is refused. */
  function HiddenTrace(a: nat, b: nat, c: nat, x: nat, y: nat): seq<Fifo.Action<nat>> {
    [Fifo.Call(a, Fifo.Enq(x)), Fifo.Call(b, Fifo.Enq(y)), Fifo.Return(b, Fifo.Ok),
     Fifo.Call(c, Fifo.Deq), Fifo.Return(c, Fifo.WouldBlock)]
  }

  /** From the state in which `a` has claimed position 0 and stopped. */
  lemma Hidden(q: Queue, b: nat, c: nat, y: nat) returns (s: seq<Event>)
    requires Wf(q) && q.n >= 2 && q.tail == 1 && q.head == 0 && q.nums[0] == 0 && q.nums[1] == 1
    requires b < |q.th| && c < |q.th| && q.th[b].Resting? && q.th[c].Resting?
    ensures Trace(q, s) ==
      [Fifo.Call(b, Fifo.Enq(y))]
      + ([Fifo.Return(b, Fifo.Ok)] + [Fifo.Call(c, Fifo.Deq), Fifo.Return(c, Fifo.WouldBlock)])
  {
    var two := q.(tail := 2);
    var done := SetNum(SetData(two, 1, y), 1, 2);
    OneNotZero(q.n);
    var last := RefusedTrace(done, c);
    var store := StoreTrace(two, b, y, 1, last);
    s := ClaimTrace(q, b, y, store);
  }

  lemma OneNotZero(n: nat)
    requires n >= 2
    ensures Slot(0, n) == 0 && Slot(1, n) == 1
  {
  }

  lemma Hiding(n: nat, threads: nat, a: nat, b: nat, c: nat, x: nat, y: nat) returns (s: seq<Event>)
    requires n >= 2 && a < threads && b < threads && c < threads && a != b && a != c
    ensures Trace(New(n, threads), s) == HiddenTrace(a, b, c, x, y)
  {
    var q0 := New(n, threads);
    OneNotZero(n);
    var rest := Hidden(Goto(q0, a, EnqWrite(x, 0)).(tail := 1), b, c, y);
    s := ClaimTrace(q0, a, x, rest);
  }

  /** The states a bounded FIFO can be in after the first `k` calls and returns of that trace. */
  ghost predicate Possible(k: nat, o: Fifo.Atomic<nat>, a: nat, b: nat, c: nat) {
    && a < |o.status| && b < |o.status| && c < |o.status| && a != b && a != c
    && (forall i :: 0 <= i < |o.status| && i != a && i != b && i != c ==> o.status[i].Idle?)
    && (o.status[a].Pending? ==> o.status[a].op.Enq?)
    && var v, w := o.status[b], o.status[c];
       match k
       case 0 => v.Idle? && w.Idle?
       case 1 => v.Idle? && w.Idle?
       case 2 => (b != c ==> w.Idle?) && (v.Pending? ==> v.op.Enq?) && (v == Fifo.Done(Fifo.Ok) ==> o.queue != [])
       case 3 => v.Idle? && w.Idle? && o.queue != []
       case 4 => (b != c ==> v.Idle?) && ((w == Fifo.Pending(Fifo.Deq) && o.queue != []) || (w.Done? && w.res.Got?))
       case _ => false
  }

  lemma PossibleSilent(k: nat, o: Fifo.Atomic<nat>, act: Fifo.Action<nat>, a: nat, b: nat, c: nat)
    requires k <= 4 && Possible(k, o, a, b, c) && Fifo.Enabled(o, act) && !Fifo.Visible(act)
    ensures Possible(k, Fifo.Apply(o, act), a, b, c)
  {
    assert act.Tau? || act.t == a || act.t == b || act.t == c;
  }

  lemma PossibleShown(k: nat, o: Fifo.Atomic<nat>, a: nat, b: nat, c: nat, x: nat, y: nat)
    requires k <= 4 && Possible(k, o, a, b, c) && Fifo.Enabled(o, HiddenTrace(a, b, c, x, y)[k])
    ensures k < 4 && Possible(k + 1, Fifo.Apply(o, HiddenTrace(a, b, c, x, y)[k]), a, b, c)
  {
  }

  lemma {:induction false} Impossible(
    k: nat, o: Fifo.Atomic<nat>, acts: seq<Fifo.Action<nat>>, a: nat, b: nat, c: nat, x: nat, y: nat)
    requires k <= 4 && Possible(k, o, a, b, c) && Fifo.Legal(o, acts)
    ensures Fifo.Visibles(acts) != HiddenTrace(a, b, c, x, y)[k..]
    decreases acts
  {
    var trace := HiddenTrace(a, b, c, x, y);
    if acts == [] {
    } else if Fifo.Visibles(acts) == trace[k..] {
      var act, o' := acts[0], Fifo.Apply(o, acts[0]);
      if Fifo.Visible(act) {
        assert act == trace[k];
        PossibleShown(k, o, a, b, c, x, y);
        assert Fifo.Visibles(acts[1..]) == Fifo.Visibles(acts)[1..] == trace[k + 1..];
        Impossible(k + 1, o', acts[1..], a, b, c, x, y);
      } else {
        PossibleSilent(k, o, act, a, b, c);
        Impossible(k, o', acts[1..], a, b, c, x, y);
      }
    }
  }

  /** MPMCSeq is not linearizable to a bounded FIFO, for any capacity and any two threads (`c` may be `b`). */
  lemma NotLinearizable(n: nat, threads: nat, a: nat, b: nat, c: nat, x: nat, y: nat)
    requires n >= 2 && a < threads && b < threads && c < threads && a != b && a != c
    ensures exists sched ::
      && Trace(New(n, threads), sched) == HiddenTrace(a, b, c, x, y)
      && !Fifo.Linearizable(n, threads, Trace(New(n, threads), sched))
  {
    var sched := Hiding(n, threads, a, b, c, x, y);
    var trace := HiddenTrace(a, b, c, x, y);
    forall acts: seq<Fifo.Action<nat>> | Fifo.Legal(Fifo.New(n, threads), acts)
      ensures Fifo.Visibles(acts) != trace
    {
      Impossible(0, Fifo.New(n, threads), acts, a, b, c, x, y);
      assert trace[0..] == trace;
    }
  }

  // Why a ring of one slot would not do

  lemma ExecOne(q: Queue, e: Event, rest: seq<Event>)
    requires Wf(q)
    ensures Exec(q, [e] + rest) == Exec(Step(q, e), rest)
  {
    assert ([e] + rest)[1..] == rest;
  }

  lemma ExecPair(q: Queue, e: Event, r: Queue, rest: seq<Event>)
    requires Wf(q) && r == Step(Step(q, e), e)
    ensures Exec(q, Twice(e, rest)) == Exec(r, rest)
  {
    ExecOne(q, e, [e] + rest);
    ExecOne(Step(q, e), e, rest);
  }

  /** A lone Enqueue stores at `tail` and publishes there. */
  function Stored(q: Queue, v: nat): (r: Queue)
    requires Wf(q)
    ensures Wf(r)
  {
    SetNum(SetData(q, q.tail, v), q.tail, q.tail + 1).(tail := q.tail + 1)
  }

  lemma LoneEnqueue(q: Queue, t: nat, v: nat, rest: seq<Event>) returns (s: seq<Event>)
    requires Wf(q) && t < |q.th| && q.th[t].Resting? && Num(q, q.tail) == q.tail
    ensures Exec(q, s) == Exec(Stored(q, v), rest)
  {
    var e, p := Event(t, Fifo.Enq(v)), q.tail;
    var r := Stored(q, v);
    var q1, q2 := Loaded(q, t, v), Claimed(q, t, v);
    var q3 := Goto(r, t, Returning(Fifo.Ok));
    ClaimStates(q, t, v);
    assert q3 == Step(Step(q2, e), e) by {
      SetTwice(q, t, EnqWrite(v, p), EnqPublish(v, p));
      SetTwice(q, t, EnqPublish(v, p), Returning(Fifo.Ok));
    }
    assert Step(q3, e) == r by { assert q.th[t := Returning(Fifo.Ok)][t := Resting] == q.th; }
    s := [e] + rest;
    ExecOne(q3, e, rest);
    ExecPair(q2, e, q3, s);
    s := Twice(e, s);
    ExecPair(q1, e, q2, s);
    s := Twice(e, s);
    ExecPair(q, e, q1, s);
    s := Twice(e, s);
  }

  ghost predicate Overfills(n: nat, threads: nat, sched: seq<Event>)
    requires n > 0
  {
    var q := Exec(New(n, threads), sched);
    q.tail > q.head + n
  }

  /** The bound `tail <= head + n` holds in every run exactly when there are two slots or more. */
  lemma BoundIffTwoSlots(n: nat, threads: nat)
    requires n > 0 && threads > 0
    ensures (forall sched :: !Overfills(n, threads, sched)) <==> n >= 2
  {
    if n >= 2 {
      forall sched
        ensures !Overfills(n, threads, sched)
      {
        Proof.BoundsAndValues(n, threads, sched);
      }
    } else {
      var q := New(n, threads);
      var one := Stored(q, 0);
      var rest := LoneEnqueue(one, 0, 0, []);
      var sched := LoneEnqueue(q, 0, 0, rest);
      assert Overfills(n, threads, sched);
    }
  }
}
