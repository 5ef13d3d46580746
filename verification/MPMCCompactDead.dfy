/**
 The lasting damage of a value stored again too early in MPMCCompactIndirect: the slot that was
 emptied out of turn carries the mark of a round that has passed, and is never used again.
 */
module MPMCCompactDead {
  import opened Ring
  import opened CompactRing
  import opened MPMCCompact
  import opened MPMCCompactReuse
  import Fifo = BoundedFifo

  /** A producer has loaded `p` and may yet fill it. */
  predicate MayFill(l: Local, p: nat) {
    (l.EnqLoadHead? || l.EnqRecheck? || l.EnqFill?) && l.tail == p
  }

  /** The slot of `p` waits to be filled for `p`, but `tail` has passed and nobody will. */
  ghost predicate Dead(q: Queue, p: nat) {
    && Wf(q) && p < q.tail && q.buf[Slot(p, q.n)] == Empty(Round(p, q.n))
    && forall i :: 0 <= i < |q.th| ==> !MayFill(q.th[i], p)
  }

  lemma DeadStep(q: Queue, e: Event, p: nat)
    requires Dead(q, p)
    ensures Dead(Step(q, e), p) && Step(q, e).n == q.n
  {
    if Fills(q, e.t) && Slot(q.th[e.t].tail, q.n) == Slot(p, q.n) && Round(q.th[e.t].tail, q.n) == Round(p, q.n) {
      SamePosition(q.th[e.t].tail, p, q.n);
    }
  }

  /** Whatever happens afterwards, with or without reuse of values. */
  lemma {:induction false} DeadForever(q: Queue, sched: seq<Event>, p: nat)
    requires Dead(q, p)
    ensures Dead(Exec(q, sched), p) && Exec(q, sched).n == q.n
    decreases sched
  {
    if sched == [] {
    } else {
      DeadStep(q, sched[0], p);
      DeadForever(Step(q, sched[0]), sched[1..], p);
    }
  }

  // What the ring can still hold

  /** The number of items in the ring. */
  function Held(buf: seq<Word>): nat {
    if buf == [] then 0 else Held(buf[..|buf| - 1]) + if buf[|buf| - 1].Value? then 1 else 0
  }

  lemma {:induction false} HeldUpdate(buf: seq<Word>, j: nat, w: Word)
    requires j < |buf|
    ensures Held(buf[j := w]) + (if buf[j].Value? then 1 else 0) == Held(buf) + (if w.Value? then 1 else 0)
    decreases |buf|
  {
    var last := |buf| - 1;
    if j == last {
      assert buf[j := w][..last] == buf[..last];
    } else {
      assert buf[j := w][..last] == buf[..last][j := w];
      HeldUpdate(buf[..last], j, w);
    }
  }

  /** With an empty slot there is room for less than `|buf|`, and if it is the only one the rest is full. */
  lemma {:induction false} HeldBelow(buf: seq<Word>, j: nat)
    requires j < |buf| && buf[j].Empty?
    ensures Held(buf) < |buf|
    ensures Held(buf) == |buf| - 1 ==> forall i :: 0 <= i < |buf| && i != j ==> buf[i].Value?
    decreases |buf|
  {
    var last := |buf| - 1;
    if j == last {
      HeldFull(buf[..last]);
    } else {
      HeldBelow(buf[..last], j);
    }
  }

  lemma {:induction false} HeldFull(buf: seq<Word>)
    ensures Held(buf) <= |buf|
    ensures Held(buf) == |buf| ==> forall i :: 0 <= i < |buf| ==> buf[i].Value?
    decreases |buf|
  {
    if buf == [] {
    } else {
      HeldFull(buf[..|buf| - 1]);
    }
  }

  /** Thread `e.t` is about to take an item out of its slot. */
  predicate Takes(q: Queue, t: nat)
    requires Wf(q)
  {
    t < |q.th| && q.th[t].DeqTake? && q.buf[Slot(q.th[t].head, q.n)] == Value(q.th[t].v)
  }

  function Stored(q: Queue, sched: seq<Event>): nat
    requires Wf(q)
    decreases sched
  {
    if sched == [] then 0 else (if Fills(q, sched[0].t) then 1 else 0) + Stored(Step(q, sched[0]), sched[1..])
  }

  function Taken(q: Queue, sched: seq<Event>): nat
    requires Wf(q)
    decreases sched
  {
    if sched == [] then 0 else (if Takes(q, sched[0].t) then 1 else 0) + Taken(Step(q, sched[0]), sched[1..])
  }

  lemma HeldStep(q: Queue, e: Event)
    requires Wf(q)
    ensures Held(Step(q, e).buf) + (if Takes(q, e.t) then 1 else 0) == Held(q.buf) + (if Fills(q, e.t) then 1 else 0)
  {
    if Fills(q, e.t) {
      HeldUpdate(q.buf, Slot(q.th[e.t].tail, q.n), Value(q.th[e.t].v));
    } else if Takes(q, e.t) {
      HeldUpdate(q.buf, Slot(q.th[e.t].head, q.n), Empty(Round(q.th[e.t].head, q.n) + 1));
    }
  }

  /** Every run, also one that reuses values, neither loses nor invents items. */
  lemma {:induction false} ItemsConserved(q: Queue, sched: seq<Event>)
    requires Wf(q)
    ensures Held(Exec(q, sched).buf) + Taken(q, sched) == Held(q.buf) + Stored(q, sched)
    decreases sched
  {
    if sched == [] {
    } else {
      HeldStep(q, sched[0]);
      ItemsConserved(Step(q, sched[0]), sched[1..]);
    }
  }

  /** With a dead slot a ring of `n` slots is a ring for `n - 1` items, for good. */
  lemma DeadCapacity(q: Queue, sched: seq<Event>, p: nat)
    requires Dead(q, p)
    ensures Held(Exec(q, sched).buf) <= q.n - 1
    ensures Held(q.buf) + Stored(q, sched) <= Taken(q, sched) + q.n - 1
  {
    DeadForever(q, sched, p);
    ItemsConserved(q, sched);
    var r := Exec(q, sched);
    HeldBelow(r.buf, Slot(p, r.n));
  }

  // An Enqueue that finds n - 1 items refuses

  /** All slots but the dead one hold items. */
  ghost predicate Crowded(q: Queue, p: nat) {
    && Wf(q) && p < q.tail && q.buf[Slot(p, q.n)] == Empty(Round(p, q.n))
    && forall j :: 0 <= j < q.n && j != Slot(p, q.n) ==> q.buf[j].Value?
  }

  predicate OnlyBy(s: seq<Event>, e: Event) {
    forall i :: 0 <= i < |s| ==> s[i] == e
  }

  lemma LoadMove(q: Queue, t: nat, v: nat, rest: seq<Event>)
    requires Wf(q) && t < |q.th|
    ensures Leads(Goto(q, t, EnqLoadTail(v)), [Event(t, Fifo.Enq(v))] + rest, [],
                  Goto(q, t, EnqLoadHead(v, q.tail)), rest)
  {
    SetTwice(q.th, t, EnqLoadTail(v), EnqLoadHead(v, q.tail));
    Moves(Goto(q, t, EnqLoadTail(v)), Event(t, Fifo.Enq(v)), Goto(q, t, EnqLoadHead(v, q.tail)), rest);
  }

  lemma RefusePair(q: Queue, t: nat, v: nat)
    requires Wf(q) && t < |q.th| && q.tail >= q.head + q.n
    ensures Pair(Goto(q, t, EnqLoadHead(v, q.tail)), Event(t, Fifo.Enq(v)), Goto(q, t, Returning(Fifo.WouldBlock)), [])
  {
    SetTwice(q.th, t, EnqLoadHead(v, q.tail), EnqRecheck(v, q.tail, q.head));
    SetTwice(q.th, t, EnqRecheck(v, q.tail, q.head), Returning(Fifo.WouldBlock));
  }

  /** The dead slot cannot be filled; the loop helps `tail` over it. */
  lemma HelpPair(q: Queue, t: nat, v: nat, p: nat)
    requires Crowded(q, p) && t < |q.th|
    ensures Pair(Goto(q, t, EnqFill(v, q.tail)), Event(t, Fifo.Enq(v)),
                 Goto(q.(tail := q.tail + 1), t, EnqLoadTail(v)), [])
  {
    if Slot(p, q.n) == Slot(q.tail, q.n) {
      SameSlot(p, q.tail, q.n);
    }
    SetTwice(q.th, t, EnqFill(v, q.tail), EnqHelp(v, q.tail));
    SetTwice(q.th, t, EnqHelp(v, q.tail), EnqLoadTail(v));
  }

  lemma ReturnsAlone(q: Queue, t: nat, v: nat)
    requires Wf(q) && t < |q.th| && q.th[t].Resting?
    ensures Leads(Goto(q, t, Returning(Fifo.WouldBlock)), [Event(t, Fifo.Enq(v))] + [],
                  [Fifo.Return(t, Fifo.WouldBlock)], q, [])
  {
    SetTwice(q.th, t, Returning(Fifo.WouldBlock), Resting);
    assert q.th[t := Resting] == q.th;
    Moves(Goto(q, t, Returning(Fifo.WouldBlock)), Event(t, Fifo.Enq(v)), q, []);
  }

  lemma {:induction false} LoopRefuses(q: Queue, t: nat, v: nat, p: nat) returns (s: seq<Event>, r: Queue)
    requires Crowded(q, p) && t < |q.th| && q.th[t].Resting?
    ensures Leads(Goto(q, t, EnqLoadTail(v)), s, [Fifo.Return(t, Fifo.WouldBlock)], r, [])
    ensures OnlyBy(s, Event(t, Fifo.Enq(v)))
    decreases q.head + q.n - q.tail
  {
    var e := Event(t, Fifo.Enq(v));
    var q0, q1 := Goto(q, t, EnqLoadTail(v)), Goto(q, t, EnqLoadHead(v, q.tail));
    if q.tail >= q.head + q.n {
      var q2 := Goto(q, t, Returning(Fifo.WouldBlock));
      r := q;
      var s2 := [e] + [];
      var s1 := [e] + ([e] + s2);
      s := [e] + s1;
      ReturnsAlone(q, t, v);
      RefusePair(q, t, v);
      MovesTwice(q1, e, q2, [], s2);
      LoadMove(q, t, v, s1);
      JoinsSilently(q1, s1, q2, s2, [Fifo.Return(t, Fifo.WouldBlock)], r);
      JoinsSilently(q0, s, q1, s1, [Fifo.Return(t, Fifo.WouldBlock)], r);
    } else {
      var q2, q3 := Goto(q, t, EnqFill(v, q.tail)), Goto(q.(tail := q.tail + 1), t, EnqLoadTail(v));
      var s3;
      s3, r := LoopRefuses(q.(tail := q.tail + 1), t, v, p);
      var s2 := [e] + ([e] + s3);
      var s1 := [e] + ([e] + s2);
      s := [e] + s1;
      HelpPair(q, t, v, p);
      MovesTwice(q2, e, q3, [], s3);
      TestPair(q, t, v);
      MovesTwice(q1, e, q2, [], s2);
      LoadMove(q, t, v, s1);
      JoinsSilently(q2, s2, q3, s3, [Fifo.Return(t, Fifo.WouldBlock)], r);
      JoinsSilently(q1, s1, q2, s2, [Fifo.Return(t, Fifo.WouldBlock)], r);
      JoinsSilently(q0, s, q1, s1, [Fifo.Return(t, Fifo.WouldBlock)], r);
    }
  }

  lemma JoinsSilently(q: Queue, s: seq<Event>, mid: Queue, t: seq<Event>, shown: seq<Fifo.Action<nat>>, r: Queue)
    requires Leads(q, s, [], mid, t) && Leads(mid, t, shown, r, [])
    ensures Leads(q, s, shown, r, [])
  {
    Joins(q, s, [], mid, t, shown, r, []);
    assert [] + shown == shown;
  }

  /** Thread `t`, running alone, has its Enqueue refused. */
  ghost predicate RefusedAlone(q: Queue, t: nat, v: nat)
    requires Wf(q)
  {
    exists s ::
      && OnlyBy(s, Event(t, Fifo.Enq(v)))
      && Trace(q, s) == [Fifo.Call(t, Fifo.Enq(v)), Fifo.Return(t, Fifo.WouldBlock)]
  }

  lemma CrowdedRefuses(q: Queue, p: nat, t: nat, v: nat)
    requires Dead(q, p) && Held(q.buf) == q.n - 1 && t < |q.th| && q.th[t].Resting?
    ensures RefusedAlone(q, t, v)
  {
    HeldBelow(q.buf, Slot(p, q.n));
    var e := Event(t, Fifo.Enq(v));
    var s, r := LoopRefuses(q, t, v, p);
    var q0 := Goto(q, t, EnqLoadTail(v));
    Moves(q, e, q0, s);
    Joins(q, [e] + s, [Fifo.Call(t, Fifo.Enq(v))], q0, s, [Fifo.Return(t, Fifo.WouldBlock)], r, []);
    Ends(q, [e] + s, [Fifo.Call(t, Fifo.Enq(v))] + [Fifo.Return(t, Fifo.WouldBlock)], r);
    assert OnlyBy([e] + s, e);
  }

  /** From now on the ring never holds `n` items, and an Enqueue on its own is refused at `n - 1`. */
  ghost predicate LostSlot(q: Queue)
    requires Wf(q)
  {
    forall sched :: Wf(Exec(q, sched)) && OneLess(q.n, Exec(q, sched))
  }

  ghost predicate OneLess(n: nat, q: Queue)
    requires Wf(q)
  {
    && Held(q.buf) < n
    && (Held(q.buf) == n - 1 ==> forall t: nat, v: nat :: t < |q.th| && q.th[t].Resting? ==> RefusedAlone(q, t, v))
  }

  lemma DeadLosesSlot(q: Queue, p: nat)
    requires Dead(q, p)
    ensures LostSlot(q)
  {
    forall sched
      ensures OneLess(q.n, Exec(q, sched))
    {
      DeadForever(q, sched, p);
      DeadCapacity(q, sched, p);
      var r := Exec(q, sched);
      if Held(r.buf) == q.n - 1 {
        forall t: nat, v: nat | t < |r.th| && r.th[t].Resting?
          ensures RefusedAlone(r, t, v)
        {
          CrowdedRefuses(r, p, t, v);
        }
      }
    }
  }

  /**
   For every capacity, two threads and two values, equal or not, there is a run after which
   every thread is at rest and one slot is lost for good.
   */
  lemma ReuseLosesSlot(n: nat, threads: nat, a: nat, b: nat, x: nat, y: nat)
    requires n >= 2 && a < threads && b < threads && a != b
    ensures exists sched :: var q := Exec(New(n, threads), sched);
      && Trace(New(n, threads), sched) == ReusingTrace(n, a, b, x, y)
      && (forall i :: 0 <= i < threads ==> q.th[i].Resting?)
      && LostSlot(q)
  {
    var sched := Reusing(n, threads, a, b, x, y);
    var q := Exec(New(n, threads), sched);
    assert Slot(n, n) == 0 && Round(n, n) == 1;
    assert Dead(q, n);
    DeadLosesSlot(q, n);
  }
}
