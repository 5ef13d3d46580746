/**
 What happens to MPMCCompactIndirect when a value is stored again too early: for every
 capacity and any two threads there is a run that no bounded FIFO can show.
 */
module MPMCCompactReuse {
  import opened Ring
  import opened CompactRing
  import opened MPMCCompact
  import Proof = MPMCCompactProof
  import Values = MPMCCompactValues
  import Fifo = BoundedFifo

  // Calls of one thread without interference

  /** Running `s` from `q` shows `shown`, reaches `r`, and goes on with `rest`. */
  ghost predicate Leads(q: Queue, s: seq<Event>, shown: seq<Fifo.Action<nat>>, r: Queue, rest: seq<Event>) {
    && Wf(q) && Wf(r)
    && Trace(q, s) == shown + Trace(r, rest) && Exec(q, s) == Exec(r, rest)
  }

  lemma Moves(q: Queue, e: Event, r: Queue, rest: seq<Event>)
    requires Wf(q) && r == Step(q, e)
    ensures Leads(q, [e] + rest, Shown(q, e), r, rest)
  {
    assert ([e] + rest)[1..] == rest;
  }

  lemma Joins(
    q: Queue, s: seq<Event>, a: seq<Fifo.Action<nat>>, mid: Queue, t: seq<Event>, b: seq<Fifo.Action<nat>>,
    r: Queue, rest: seq<Event>)
    requires Leads(q, s, a, mid, t) && Leads(mid, t, b, r, rest)
    ensures Leads(q, s, a + b, r, rest)
  {
    Fifo.Associates(a, b, Trace(r, rest));
  }

  /** Two steps of thread `e.t` lead from `q` to `r` and show `shown`. */
  predicate Pair(q: Queue, e: Event, r: Queue, shown: seq<Fifo.Action<nat>>)
    requires Wf(q)
  {
    r == Step(Step(q, e), e) && shown == Shown(q, e) + Shown(Step(q, e), e)
  }

  lemma MovesTwice(q: Queue, e: Event, r: Queue, shown: seq<Fifo.Action<nat>>, rest: seq<Event>)
    requires Wf(q) && Pair(q, e, r, shown)
    ensures Leads(q, [e] + ([e] + rest), shown, r, rest)
  {
    Moves(q, e, Step(q, e), [e] + rest);
    Moves(Step(q, e), e, r, rest);
    Joins(q, [e] + ([e] + rest), Shown(q, e), Step(q, e), [e] + rest, Shown(Step(q, e), e), r, rest);
  }

  lemma SetTwice(th: seq<Local>, t: nat, a: Local, b: Local)
    requires t < |th|
    ensures th[t := a][t := b] == th[t := b]
  {
  }

  function Enqueued(q: Queue, v: nat): (r: Queue)
    requires Wf(q)
    ensures Wf(r)
  {
    q.(tail := q.tail + 1, buf := q.buf[Slot(q.tail, q.n) := Value(v)])
  }

  lemma CallPair(q: Queue, t: nat, v: nat)
    requires Wf(q) && t < |q.th| && q.th[t].Resting?
    ensures Pair(q, Event(t, Fifo.Enq(v)), Goto(q, t, EnqLoadHead(v, q.tail)), [Fifo.Call(t, Fifo.Enq(v))])
  {
    SetTwice(q.th, t, EnqLoadTail(v), EnqLoadHead(v, q.tail));
  }

  lemma TestPair(q: Queue, t: nat, v: nat)
    requires Wf(q) && t < |q.th| && q.tail < q.head + q.n
    ensures Pair(Goto(q, t, EnqLoadHead(v, q.tail)), Event(t, Fifo.Enq(v)), Goto(q, t, EnqFill(v, q.tail)), [])
  {
    SetTwice(q.th, t, EnqLoadHead(v, q.tail), EnqRecheck(v, q.tail, q.head));
    SetTwice(q.th, t, EnqRecheck(v, q.tail, q.head), EnqFill(v, q.tail));
  }

  lemma StorePair(q: Queue, t: nat, v: nat)
    requires Wf(q) && t < |q.th| && q.buf[Slot(q.tail, q.n)] == Empty(Round(q.tail, q.n))
    ensures Pair(Goto(q, t, EnqFill(v, q.tail)), Event(t, Fifo.Enq(v)), Goto(Enqueued(q, v), t, Returning(Fifo.Ok)), [])
  {
    SetTwice(q.th, t, EnqFill(v, q.tail), EnqAdvance(v, q.tail));
    SetTwice(q.th, t, EnqAdvance(v, q.tail), Returning(Fifo.Ok));
  }

  lemma Returns(q: Queue, t: nat, res: Res, rest: seq<Event>)
    requires Wf(q) && t < |q.th| && q.th[t].Resting?
    ensures Leads(Goto(q, t, Returning(res)), [Event(t, Fifo.Deq)] + rest, [Fifo.Return(t, res)], q, rest)
  {
    SetTwice(q.th, t, Returning(res), Resting);
    assert q.th[t := Resting] == q.th;
    Moves(Goto(q, t, Returning(res)), Event(t, Fifo.Deq), q, rest);
  }

  /** An Enqueue that runs alone on a ring with room. */
  lemma LoneEnqueue(q: Queue, t: nat, v: nat, rest: seq<Event>) returns (s: seq<Event>)
    requires Wf(q) && t < |q.th| && q.th[t].Resting?
    requires q.tail < q.head + q.n && q.buf[Slot(q.tail, q.n)] == Empty(Round(q.tail, q.n))
    ensures Leads(q, s, [Fifo.Call(t, Fifo.Enq(v)), Fifo.Return(t, Fifo.Ok)], Enqueued(q, v), rest)
  {
    var e, call: seq<Fifo.Action<nat>> := Event(t, Fifo.Enq(v)), [Fifo.Call(t, Fifo.Enq(v))];
    var s3 := [Event(t, Fifo.Deq)] + rest;
    var s2 := [e] + ([e] + s3);
    var s1 := [e] + ([e] + s2);
    s := [e] + ([e] + s1);
    var q1, q2 := Goto(q, t, EnqLoadHead(v, q.tail)), Goto(q, t, EnqFill(v, q.tail));
    var q3 := Goto(Enqueued(q, v), t, Returning(Fifo.Ok));
    assert Leads(q, s, call, q1, s1) by { CallPair(q, t, v); MovesTwice(q, e, q1, call, s1); }
    assert Leads(q1, s1, [], q2, s2) by { TestPair(q, t, v); MovesTwice(q1, e, q2, [], s2); }
    assert Leads(q2, s2, [], q3, s3) by { StorePair(q, t, v); MovesTwice(q2, e, q3, [], s3); }
    Returns(Enqueued(q, v), t, Fifo.Ok, rest);
    Joins(q2, s2, [], q3, s3, [Fifo.Return(t, Fifo.Ok)], Enqueued(q, v), rest);
    Joins(q1, s1, [], q2, s2, [] + [Fifo.Return(t, Fifo.Ok)], Enqueued(q, v), rest);
    Joins(q, s, call, q1, s1, [] + ([] + [Fifo.Return(t, Fifo.Ok)]), Enqueued(q, v), rest);
    assert call + ([] + ([] + [Fifo.Return(t, Fifo.Ok)])) == [Fifo.Call(t, Fifo.Enq(v)), Fifo.Return(t, Fifo.Ok)];
  }

  lemma BeginPair(q: Queue, t: nat)
    requires Wf(q) && t < |q.th| && q.th[t].Resting?
    ensures Pair(q, Event(t, Fifo.Deq), Goto(q, t, DeqLoadTail(q.head)), [Fifo.Call(t, Fifo.Deq)])
  {
    SetTwice(q.th, t, DeqLoadHead, DeqLoadTail(q.head));
  }

  lemma LoadPair(q: Queue, t: nat, v: nat)
    requires Wf(q) && t < |q.th| && q.buf[Slot(q.head, q.n)] == Value(v)
    ensures Pair(Goto(q, t, DeqLoadTail(q.head)), Event(t, Fifo.Deq),
                 Goto(q, t, DeqRecheck(q.head, q.tail, Value(v))), [])
  {
    SetTwice(q.th, t, DeqLoadTail(q.head), DeqLoadSlot(q.head, q.tail));
    SetTwice(q.th, t, DeqLoadSlot(q.head, q.tail), DeqRecheck(q.head, q.tail, Value(v)));
  }

  lemma Confirms(q: Queue, t: nat, v: nat, rest: seq<Event>)
    requires Wf(q) && t < |q.th| && q.head < q.tail
    ensures Leads(Goto(q, t, DeqRecheck(q.head, q.tail, Value(v))), [Event(t, Fifo.Deq)] + rest, [],
                  Goto(q, t, DeqTake(q.head, v)), rest)
  {
    SetTwice(q.th, t, DeqRecheck(q.head, q.tail, Value(v)), DeqTake(q.head, v));
    Moves(Goto(q, t, DeqRecheck(q.head, q.tail, Value(v))), Event(t, Fifo.Deq), Goto(q, t, DeqTake(q.head, v)), rest);
  }

  /** A Dequeue up to, but not including, its CAS on the slot. */
  lemma HalfDequeue(q: Queue, t: nat, v: nat, rest: seq<Event>) returns (s: seq<Event>)
    requires Wf(q) && t < |q.th| && q.th[t].Resting?
    requires q.head < q.tail && q.buf[Slot(q.head, q.n)] == Value(v)
    ensures Leads(q, s, [Fifo.Call(t, Fifo.Deq)], Goto(q, t, DeqTake(q.head, v)), rest)
  {
    var e, call: seq<Fifo.Action<nat>> := Event(t, Fifo.Deq), [Fifo.Call(t, Fifo.Deq)];
    var s2 := [e] + rest;
    var s1 := [e] + ([e] + s2);
    s := [e] + ([e] + s1);
    var q1, q2 := Goto(q, t, DeqLoadTail(q.head)), Goto(q, t, DeqRecheck(q.head, q.tail, Value(v)));
    var q3 := Goto(q, t, DeqTake(q.head, v));
    assert Leads(q, s, call, q1, s1) by { BeginPair(q, t); MovesTwice(q, e, q1, call, s1); }
    assert Leads(q1, s1, [], q2, s2) by { LoadPair(q, t, v); MovesTwice(q1, e, q2, [], s2); }
    Confirms(q, t, v, rest);
    Joins(q1, s1, [], q2, s2, [], q3, rest);
    Joins(q, s, call, q1, s1, [] + [], q3, rest);
    assert call + ([] + []) == call;
  }

  function Emptied(q: Queue, t: nat, h: nat): (r: Queue)
    requires Wf(q) && t < |q.th|
    ensures Wf(r)
  {
    CasHead(Goto(q, t, Resting).(buf := q.buf[Slot(h, q.n) := Empty(Round(h, q.n) + 1)]), h)
  }

  lemma TakePair(q: Queue, t: nat, h: nat, v: nat)
    requires Wf(q) && t < |q.th| && q.th[t] == DeqTake(h, v) && q.buf[Slot(h, q.n)] == Value(v)
    ensures Pair(q, Event(t, Fifo.Deq), Goto(Emptied(q, t, h), t, Returning(Fifo.Got(v))), [])
  {
    SetTwice(q.th, t, DeqAdvance(h, v), Returning(Fifo.Got(v)));
    SetTwice(q.th, t, Resting, Returning(Fifo.Got(v)));
  }

  /** The rest of a Dequeue whose CAS finds the value it expects, wherever `head` is by now. */
  lemma OtherHalf(q: Queue, t: nat, h: nat, v: nat, rest: seq<Event>) returns (s: seq<Event>)
    requires Wf(q) && t < |q.th| && q.th[t] == DeqTake(h, v) && q.buf[Slot(h, q.n)] == Value(v)
    ensures Leads(q, s, [Fifo.Return(t, Fifo.Got(v))], Emptied(q, t, h), rest)
  {
    var e := Event(t, Fifo.Deq);
    s := [e] + ([e] + ([e] + rest));
    var q2 := Goto(Emptied(q, t, h), t, Returning(Fifo.Got(v)));
    assert Leads(q, s, [], q2, [e] + rest) by { TakePair(q, t, h, v); MovesTwice(q, e, q2, [], [e] + rest); }
    Returns(Emptied(q, t, h), t, Fifo.Got(v), rest);
    Joins(q, s, [], q2, [e] + rest, [Fifo.Return(t, Fifo.Got(v))], Emptied(q, t, h), rest);
    assert [] + [Fifo.Return(t, Fifo.Got(v))] == [Fifo.Return(t, Fifo.Got(v))];
  }

  // The ring is filled up again

  /** The ring holds `vals[head..]` at `[head, tail)` and is in order. */
  ghost predicate Orderly(q: Queue, vals: seq<nat>) {
    Wf(q) && q.tail == |vals| && Layout(q.buf, q.n, q.head, vals)
  }

  function Refilled(q: Queue, y: nat, k: nat): (r: Queue)
    requires Wf(q)
    ensures Wf(r) && r.n == q.n && r.head == q.head && r.tail == q.tail + k && r.th == q.th
    decreases k
  {
    if k == 0 then q else Refilled(Enqueued(q, y), y, k - 1)
  }

  function Fillers(b: nat, y: nat, k: nat): seq<Fifo.Action<nat>> {
    if k == 0 then [] else [Fifo.Call(b, Fifo.Enq(y)), Fifo.Return(b, Fifo.Ok)] + Fillers(b, y, k - 1)
  }

  lemma Room(q: Queue, vals: seq<nat>, y: nat)
    requires Orderly(q, vals) && q.tail < q.head + q.n
    ensures q.buf[Slot(q.tail, q.n)] == Empty(Round(q.tail, q.n))
    ensures Orderly(Enqueued(q, y), vals + [y])
  {
    FillKeeps(q.buf, q.n, q.head, vals, y);
  }

  lemma {:induction false} RefillKeeps(q: Queue, vals: seq<nat>, y: nat, k: nat) returns (vals': seq<nat>)
    requires Orderly(q, vals) && q.tail + k <= q.head + q.n
    ensures Orderly(Refilled(q, y, k), vals')
    decreases k
  {
    if k == 0 {
      vals' := vals;
    } else {
      Room(q, vals, y);
      vals' := RefillKeeps(Enqueued(q, y), vals + [y], y, k - 1);
    }
  }

  lemma {:induction false} Refill(q: Queue, vals: seq<nat>, b: nat, y: nat, k: nat, rest: seq<Event>)
    returns (s: seq<Event>)
    requires Orderly(q, vals) && q.tail + k <= q.head + q.n && b < |q.th| && q.th[b].Resting?
    ensures Leads(q, s, Fillers(b, y, k), Refilled(q, y, k), rest)
    decreases k
  {
    if k == 0 {
      s := rest;
      assert [] + Trace(q, rest) == Trace(q, rest);
    } else {
      Room(q, vals, y);
      var t := Refill(Enqueued(q, y), vals + [y], b, y, k - 1, rest);
      s := LoneEnqueue(q, b, y, t);
      var one := [Fifo.Call(b, Fifo.Enq(y)), Fifo.Return(b, Fifo.Ok)];
      Joins(q, s, one, Enqueued(q, y), t, Fillers(b, y, k - 1), Refilled(q, y, k), rest);
    }
  }

  // A value stored again too early

  function Before(a: nat, b: nat, x: nat): seq<Fifo.Action<nat>> {
    [Fifo.Call(b, Fifo.Enq(x)), Fifo.Return(b, Fifo.Ok),
     Fifo.Call(a, Fifo.Deq),
     Fifo.Call(b, Fifo.Deq), Fifo.Return(b, Fifo.Got(x))]
  }

  function Again(a: nat, b: nat, x: nat): seq<Fifo.Action<nat>> {
    [Fifo.Call(b, Fifo.Enq(x)), Fifo.Return(b, Fifo.Ok), Fifo.Return(a, Fifo.Got(x))]
  }

  /**
   Thread `a` stops in Dequeue with `x` in hand.  Thread `b` dequeues `x`, enqueues `n - 1`
   times `y` and again `x`, which lands in the slot that `a` watches.  Thread `a` goes on and
   overtakes all `y`.
   */
  function ReusingTrace(n: nat, a: nat, b: nat, x: nat, y: nat): seq<Fifo.Action<nat>>
    requires n > 0
  {
    Before(a, b, x) + (Fillers(b, y, n - 1) + Again(a, b, x))
  }

  /** The end of the run: position `n` was taken by the consumer of position 0. */
  ghost predicate Robbed(q: Queue, n: nat, threads: nat) {
    && Wf(q) && q.n == n && |q.th| == threads && (forall i :: 0 <= i < threads ==> q.th[i].Resting?)
    && q.tail == n + 1 && q.head == 1 && q.buf[0] == Empty(1)
  }

  lemma Stolen(q: Queue, vals: seq<nat>, a: nat, b: nat, x: nat) returns (s: seq<Event>, r: Queue)
    requires Orderly(q, vals) && q.n >= 2 && q.head == 1 && q.tail == q.n
    requires a < |q.th| && b < |q.th| && a != b && q.th[a] == DeqTake(0, x)
    requires forall i :: 0 <= i < |q.th| && i != a ==> q.th[i].Resting?
    ensures Leads(q, s, Again(a, b, x), r, []) && Robbed(r, q.n, |q.th|)
  {
    Room(q, vals, x);
    assert Slot(q.n, q.n) == 0 && Slot(0, q.n) == 0;
    var q' := Enqueued(q, x);
    r := Emptied(q', a, 0);
    var t := OtherHalf(q', a, 0, x, []);
    s := LoneEnqueue(q, b, x, t);
    Joins(q, s, [Fifo.Call(b, Fifo.Enq(x)), Fifo.Return(b, Fifo.Ok)], q', t, [Fifo.Return(a, Fifo.Got(x))], r, []);
    assert [Fifo.Call(b, Fifo.Enq(x)), Fifo.Return(b, Fifo.Ok)] + [Fifo.Return(a, Fifo.Got(x))] == Again(a, b, x);
  }

  lemma RefilledAndStolen(q: Queue, vals: seq<nat>, a: nat, b: nat, x: nat, y: nat) returns (s: seq<Event>, r: Queue)
    requires Orderly(q, vals) && q.n >= 2 && q.head == 1 && q.tail == 1
    requires a < |q.th| && b < |q.th| && a != b && q.th[a] == DeqTake(0, x)
    requires forall i :: 0 <= i < |q.th| && i != a ==> q.th[i].Resting?
    ensures Leads(q, s, Fillers(b, y, q.n - 1) + Again(a, b, x), r, []) && Robbed(r, q.n, |q.th|)
  {
    var vals' := RefillKeeps(q, vals, y, q.n - 1);
    var q' := Refilled(q, y, q.n - 1);
    var t;
    t, r := Stolen(q', vals', a, b, x);
    s := Refill(q, vals, b, y, q.n - 1, t);
    Joins(q, s, Fillers(b, y, q.n - 1), q', t, Again(a, b, x), r, []);
  }

  /** Thread `b` takes what `a` has in hand. */
  lemma Overtaken(q: Queue, a: nat, b: nat, x: nat) returns (r: Queue)
    requires Orderly(q, [x]) && q.n >= 2 && q.head == 0 && a < |q.th| && b < |q.th| && a != b
    requires q.th[a] == DeqTake(0, x) && q.th[b].Resting?
    ensures r == Emptied(Goto(q, b, DeqTake(0, x)), b, 0)
    ensures q.buf[Slot(0, q.n)] == Value(x) && Orderly(r, [x]) && r.head == 1 && r.n == q.n && r.th == q.th
  {
    r := Emptied(Goto(q, b, DeqTake(0, x)), b, 0);
    TakeKeeps(q.buf, q.n, 0, [x]);
    SetTwice(q.th, b, DeqTake(0, x), Resting);
    assert q.th[b := Resting] == q.th;
  }

  /** What follows once `a` has stopped. */
  lemma Robbery(q: Queue, a: nat, b: nat, x: nat, y: nat) returns (s: seq<Event>, r: Queue)
    requires Orderly(q, [x]) && q.n >= 2 && q.head == 0 && a < |q.th| && b < |q.th| && a != b
    requires q.th[a] == DeqTake(0, x) && forall i :: 0 <= i < |q.th| && i != a ==> q.th[i].Resting?
    ensures Leads(q, s, Before(a, b, x)[3..] + (Fillers(b, y, q.n - 1) + Again(a, b, x)), r, [])
    ensures Robbed(r, q.n, |q.th|)
  {
    var last := Fillers(b, y, q.n - 1) + Again(a, b, x);
    var q' := Overtaken(q, a, b, x);
    var s2;
    s2, r := RefilledAndStolen(q', [x], a, b, x, y);
    var hit := Goto(q, b, DeqTake(0, x));
    var s1 := OtherHalf(hit, b, 0, x, s2);
    s := HalfDequeue(q, b, x, s1);
    Joins(hit, s1, [Fifo.Return(b, Fifo.Got(x))], q', s2, last, r, []);
    Joins(q, s, [Fifo.Call(b, Fifo.Deq)], hit, s1, [Fifo.Return(b, Fifo.Got(x))] + last, r, []);
    BeforeSplits(a, b, x, last);
  }

  /** The five calls and returns before the ring is refilled, one call at a time. */
  lemma BeforeSplits(a: nat, b: nat, x: nat, last: seq<Fifo.Action<nat>>)
    ensures [Fifo.Call(b, Fifo.Deq)] + ([Fifo.Return(b, Fifo.Got(x))] + last) == Before(a, b, x)[3..] + last
    ensures [Fifo.Call(b, Fifo.Enq(x)), Fifo.Return(b, Fifo.Ok)]
      + ([Fifo.Call(a, Fifo.Deq)] + (Before(a, b, x)[3..] + last)) == Before(a, b, x) + last
  {
  }

  lemma Ends(q: Queue, s: seq<Event>, shown: seq<Fifo.Action<nat>>, r: Queue)
    requires Leads(q, s, shown, r, [])
    ensures Trace(q, s) == shown && Exec(q, s) == r
  {
    assert Trace(r, []) == [] && shown + [] == shown;
  }

  lemma StartsWith(n: nat, threads: nat, x: nat) returns (q: Queue)
    requires n >= 2
    ensures q == Enqueued(New(n, threads), x) && Orderly(q, [x]) && q.buf[0] == Value(x)
    ensures New(n, threads).buf[0] == Empty(Round(0, n)) && Slot(0, n) == 0
  {
    NewLayout(n);
    Room(New(n, threads), [], x);
    q := Enqueued(New(n, threads), x);
    assert [] + [x] == [x];
  }

  lemma Reusing(n: nat, threads: nat, a: nat, b: nat, x: nat, y: nat) returns (s: seq<Event>)
    requires n >= 2 && a < threads && b < threads && a != b
    ensures Trace(New(n, threads), s) == ReusingTrace(n, a, b, x, y)
    ensures Robbed(Exec(New(n, threads), s), n, threads)
  {
    var q0 := New(n, threads);
    var q1 := StartsWith(n, threads, x);
    var q2 := Goto(q1, a, DeqTake(0, x));
    var s2, r := Robbery(q2, a, b, x, y);
    var s1 := HalfDequeue(q1, a, x, s2);
    s := LoneEnqueue(q0, b, x, s1);
    var last := Fillers(b, y, n - 1) + Again(a, b, x);
    var one := [Fifo.Call(b, Fifo.Enq(x)), Fifo.Return(b, Fifo.Ok)];
    var two: seq<Fifo.Action<nat>> := [Fifo.Call(a, Fifo.Deq)];
    Joins(q1, s1, two, q2, s2, Before(a, b, x)[3..] + last, r, []);
    Joins(q0, s, one, q1, s1, two + (Before(a, b, x)[3..] + last), r, []);
    BeforeSplits(a, b, x, last);
    Ends(q0, s, Before(a, b, x) + last, r);
  }

  // No bounded FIFO shows such a trace

  /** Where a run of the specification stands in the trace. */
  datatype Phase = First(k: nat) | Between(left: nat) | Within(left: nat) | Last(k: nat)

  predicate Sound(ph: Phase) {
    (ph.First? ==> ph.k < 5) && (ph.Last? ==> 1 <= ph.k <= 2)
  }

  /** What is still to be shown. */
  function Rest(ph: Phase, n: nat, a: nat, b: nat, x: nat, y: nat): seq<Fifo.Action<nat>>
    requires Sound(ph) && n > 0
  {
    match ph
    case First(k) => Before(a, b, x)[k..] + (Fillers(b, y, n - 1) + Again(a, b, x))
    case Between(left) => Fillers(b, y, left) + Again(a, b, x)
    case Within(left) => [Fifo.Return(b, Fifo.Ok)] + (Fillers(b, y, left) + Again(a, b, x))
    case Last(k) => Again(a, b, x)[k..]
  }

  function Following(ph: Phase, n: nat): Phase
    requires n > 0
  {
    match ph
    case First(k) => if k < 4 then First(k + 1) else Between(n - 1)
    case Between(left) => if left == 0 then Last(1) else Within(left - 1)
    case Within(left) => Between(left)
    case Last(k) => Last(k + 1)
  }

  function Shows(ph: Phase, a: nat, b: nat, x: nat, y: nat): Fifo.Action<nat>
    requires Sound(ph)
  {
    match ph
    case First(k) => Before(a, b, x)[k]
    case Between(left) => Fifo.Call(b, Fifo.Enq(if left == 0 then x else y))
    case Within(_) => Fifo.Return(b, Fifo.Ok)
    case Last(k) => Again(a, b, x)[k]
  }

  lemma RestUnfolds(ph: Phase, n: nat, a: nat, b: nat, x: nat, y: nat)
    requires Sound(ph) && n > 0
    ensures Rest(ph, n, a, b, x, y) != [] && Rest(ph, n, a, b, x, y)[0] == Shows(ph, a, b, x, y)
    ensures ph != Last(2) ==> Rest(ph, n, a, b, x, y)[1..] == Rest(Following(ph, n), n, a, b, x, y)
  {
  }

  /** The states a bounded FIFO can be in at that point. */
  ghost predicate Possible(ph: Phase, o: Fifo.Atomic<nat>, n: nat, a: nat, b: nat, x: nat, y: nat) {
    && o.cap == n && a < |o.status| && b < |o.status| && a != b
    && (forall i :: 0 <= i < |o.status| && i != a && i != b ==> o.status[i].Idle?)
    && var q, u, v := o.queue, o.status[a], o.status[b];
       var waits: Fifo.Status<nat> := Fifo.Pending(Fifo.Deq);
       match ph
       case First(0) => u.Idle? && v.Idle? && q == []
       case First(1) => u.Idle? && ((v == Fifo.Pending(Fifo.Enq(x)) && q == []) || (v.Done? && q == [x]))
       case First(2) => u.Idle? && v.Idle? && q == [x]
       case First(3) => v.Idle? && ((u == waits && q == [x]) || (u == Fifo.Done(Fifo.Got(x)) && q == []))
       case First(4) =>
         || (q == [x] && u == waits && v == waits)
         || (q == [] && u == waits && v.Done?)
         || (q == [] && u == Fifo.Done(Fifo.WouldBlock) && v.Done?)
         || (q == [] && u == Fifo.Done(Fifo.Got(x)) && (v == waits || v == Fifo.Done(Fifo.WouldBlock)))
       case Between(left) => Spoilt(u, x) || (u == waits && v.Idle? && Only(q, y) && (left < n - 1 ==> q != []))
       case Within(left) =>
         || Spoilt(u, x)
         || (&& u == waits && Only(q, y)
             && (v == Fifo.Pending(Fifo.Enq(y)) || v == Fifo.Done(Fifo.WouldBlock) || (v.Done? && q != [])))
       case Last(1) =>
         Spoilt(u, x) || (u == waits && q != [] && q[0] == y && (v == Fifo.Pending(Fifo.Enq(x)) || v.Done?))
       case Last(2) => Spoilt(u, x) || (u == waits && q != [] && q[0] == y && v.Idle?)
       case _ => false
  }

  /** The stopped thread has a result other than `x`. */
  predicate Spoilt(u: Fifo.Status<nat>, x: nat) {
    u.Done? && u.res != Fifo.Got(x)
  }

  predicate Only(q: seq<nat>, y: nat) {
    forall i :: 0 <= i < |q| ==> q[i] == y
  }

  lemma PossibleSilent(ph: Phase, o: Fifo.Atomic<nat>, act: Fifo.Action<nat>, n: nat, a: nat, b: nat, x: nat, y: nat)
    requires x != y && n >= 2 && Sound(ph) && Possible(ph, o, n, a, b, x, y)
    requires Fifo.Enabled(o, act) && !Fifo.Visible(act)
    ensures Possible(ph, Fifo.Apply(o, act), n, a, b, x, y)
  {
    assert act.Tau? || act.t == a || act.t == b;
  }

  lemma PossibleShown(ph: Phase, o: Fifo.Atomic<nat>, n: nat, a: nat, b: nat, x: nat, y: nat)
    requires x != y && n >= 2 && Sound(ph) && Possible(ph, o, n, a, b, x, y) && Fifo.Enabled(o, Shows(ph, a, b, x, y))
    ensures ph != Last(2) && Possible(Following(ph, n), Fifo.Apply(o, Shows(ph, a, b, x, y)), n, a, b, x, y)
  {
  }

  lemma {:induction false} Impossible(
    ph: Phase, o: Fifo.Atomic<nat>, acts: seq<Fifo.Action<nat>>, n: nat, a: nat, b: nat, x: nat, y: nat)
    requires x != y && n >= 2 && Sound(ph) && Possible(ph, o, n, a, b, x, y) && Fifo.Legal(o, acts)
    ensures Fifo.Visibles(acts) != Rest(ph, n, a, b, x, y)
    decreases acts
  {
    RestUnfolds(ph, n, a, b, x, y);
    if acts == [] {
    } else if Fifo.Visibles(acts) == Rest(ph, n, a, b, x, y) {
      var act, o' := acts[0], Fifo.Apply(o, acts[0]);
      if Fifo.Visible(act) {
        assert act == Shows(ph, a, b, x, y);
        PossibleShown(ph, o, n, a, b, x, y);
        assert Fifo.Visibles(acts[1..]) == Fifo.Visibles(acts)[1..];
        Impossible(Following(ph, n), o', acts[1..], n, a, b, x, y);
      } else {
        PossibleSilent(ph, o, act, n, a, b, x, y);
        Impossible(ph, o', acts[1..], n, a, b, x, y);
      }
    }
  }

  /** Without the obligation the queue is not linearizable, whatever the capacity, the threads and the two values. */
  lemma ReuseNotLinearizable(n: nat, threads: nat, a: nat, b: nat, x: nat, y: nat)
    requires n >= 2 && a < threads && b < threads && a != b && x != y
    ensures exists sched ::
      && Trace(New(n, threads), sched) == ReusingTrace(n, a, b, x, y)
      && !Fifo.Linearizable(n, threads, Trace(New(n, threads), sched))
      && !FreshRun(New(n, threads), sched)
  {
    var sched := Reusing(n, threads, a, b, x, y);
    var trace := ReusingTrace(n, a, b, x, y);
    forall acts: seq<Fifo.Action<nat>> | Fifo.Legal(Fifo.New(n, threads), acts)
      ensures Fifo.Visibles(acts) != trace
    {
      Impossible(First(0), Fifo.New(n, threads), acts, n, a, b, x, y);
      assert Before(a, b, x)[0..] == Before(a, b, x);
    }
    if FreshRun(New(n, threads), sched) {
      Proof.Linearizable(n, threads, sched);
    }
  }

  /** Exactly when every run is linearizable, whatever values are used: one thread at most. */
  lemma LinearizableIff(n: nat, threads: nat)
    requires n >= 2
    ensures (forall sched :: Fifo.Linearizable(n, threads, Trace(New(n, threads), sched))) <==> threads <= 1
  {
    if threads <= 1 {
      forall sched
        ensures Fifo.Linearizable(n, threads, Trace(New(n, threads), sched))
      {
        Values.LoneFresh(New(n, threads), sched);
        Proof.Linearizable(n, threads, sched);
      }
    } else {
      ReuseNotLinearizable(n, threads, 0, 1, 0, 1);
    }
  }
}
