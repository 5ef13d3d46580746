/**
 Runs of MPMCIndirect in which one thread moves at a time: what a stretch of steps of one
 thread makes of the memory, wherever the other threads stand still.
 */
module MPMCIndirectRuns {
  import opened Ring
  import opened TwoLap
  import opened MPMCIndirect

  ghost predicate CanReach(q0: Queue, q: Queue)
    requires Wf(q0)
  {
    exists sched :: Exec(q0, sched) == q
  }

  lemma {:induction false} OneMore(q: Queue, sched: seq<Event>, e: Event)
    requires Wf(q)
    ensures Exec(q, sched + [e]) == Step(Exec(q, sched), e)
    decreases sched
  {
    if sched == [] {
      assert Exec(q, [e]) == Exec(Step(q, e), []);
    } else {
      assert (sched + [e])[1..] == sched[1..] + [e];
      OneMore(Step(q, sched[0]), sched[1..], e);
    }
  }

  /** The memory is `q` and thread `t` stands at `l`; this is reachable. */
  ghost predicate Stands(q0: Queue, q: Queue, t: nat, l: Local) {
    Wf(q0) && Wf(q) && t < |q.th| && CanReach(q0, Goto(q, t, l))
  }

  /** It is the turn of thread `t`. */
  lemma Turn(q0: Queue, q: Queue, t: nat)
    requires Wf(q0) && Wf(q) && t < |q.th| && CanReach(q0, q)
    ensures Stands(q0, q, t, q.th[t])
  {
    assert Goto(q, t, q.th[t]) == q;
  }

  lemma SetTwice(q: Queue, t: nat, a: Local, b: Local)
    requires t < |q.th|
    ensures Goto(Goto(q, t, a), t, b) == Goto(q, t, b)
  {
    assert q.th[t := a][t := b] == q.th[t := b];
  }

  lemma Moves(q0: Queue, q: Queue, t: nat, l: Local, op: Op, q': Queue, l': Local)
    requires Stands(q0, q, t, l) && Wf(q') && |q'.th| == |q.th|
    requires Step(Goto(q, t, l), Event(t, op)) == Goto(q', t, l')
    ensures Stands(q0, q', t, l')
  {
    var sched :| Exec(q0, sched) == Goto(q, t, l);
    OneMore(q0, sched, Event(t, op));
    assert Exec(q0, sched + [Event(t, op)]) == Goto(q', t, l');
  }

  // Enqueue

  lemma Tests(q0: Queue, q: Queue, t: nat, v: nat)
    requires Stands(q0, q, t, Resting)
    ensures Stands(q0, q, t, EnqLoadHead(v, q.tail))
  {
    SetTwice(q, t, Resting, EnqLoadTail(v));
    Moves(q0, q, t, Resting, Enq(v), q, EnqLoadTail(v));
    SetTwice(q, t, EnqLoadTail(v), EnqLoadHead(v, q.tail));
    Moves(q0, q, t, EnqLoadTail(v), Enq(v), q, EnqLoadHead(v, q.tail));
  }

  lemma Passes(q0: Queue, q: Queue, t: nat, v: nat, tail: nat)
    requires Stands(q0, q, t, EnqLoadHead(v, tail)) && tail < q.head + q.n
    ensures Stands(q0, q, t, EnqClaim(v))
  {
    SetTwice(q, t, EnqLoadHead(v, tail), EnqClaim(v));
    Moves(q0, q, t, EnqLoadHead(v, tail), Enq(v), q, EnqClaim(v));
  }

  lemma Claims(q0: Queue, q: Queue, t: nat, v: nat)
    requires Stands(q0, q, t, EnqClaim(v))
    ensures Stands(q0, q.(tail := q.tail + 1), t, EnqLoadSlot(v, q.tail))
  {
    SetTwice(q, t, EnqClaim(v), EnqLoadSlot(v, q.tail));
    Moves(q0, q, t, EnqClaim(v), Enq(v), q.(tail := q.tail + 1), EnqLoadSlot(v, q.tail));
  }

  lemma Returns(q0: Queue, q: Queue, t: nat, res: Res)
    requires Stands(q0, q, t, Returning(res))
    ensures Stands(q0, q, t, Resting)
  {
    SetTwice(q, t, Returning(res), Resting);
    Moves(q0, q, t, Returning(res), Deq, q, Resting);
  }

  /** A claim whose slot is not free yet: the position is abandoned. */
  lemma Abandons(q0: Queue, q: Queue, t: nat, v: nat)
    requires Stands(q0, q, t, EnqClaim(v)) && At(q, q.tail).cycle < Cycle(q.tail, q.n)
    ensures Stands(q0, q.(tail := q.tail + 1), t, Resting)
  {
    Claims(q0, q, t, v);
    var q', my := q.(tail := q.tail + 1), q.tail;
    SetTwice(q', t, EnqLoadSlot(v, my), Returning(WouldBlock));
    Moves(q0, q', t, EnqLoadSlot(v, my), Enq(v), q', Returning(WouldBlock));
    Returns(q0, q', t, WouldBlock);
  }

  function Accepted(q: Queue, v: nat): Queue
    requires Wf(q)
  {
    Put(q, q.tail, Entry(Cycle(q.tail, q.n) + 1, v)).(tail := q.tail + 1, threshold := 3 * q.n - 1)
  }

  /** A claim whose slot is free. */
  lemma Fills(q0: Queue, q: Queue, t: nat, v: nat)
    requires Stands(q0, q, t, EnqClaim(v)) && At(q, q.tail).cycle == Cycle(q.tail, q.n)
    ensures Stands(q0, Accepted(q, v), t, Resting)
  {
    Claims(q0, q, t, v);
    var q1, my, val := q.(tail := q.tail + 1), q.tail, At(q, q.tail).val;
    SetTwice(q1, t, EnqLoadSlot(v, my), EnqFill(v, my, val));
    Moves(q0, q1, t, EnqLoadSlot(v, my), Enq(v), q1, EnqFill(v, my, val));
    var q2 := Put(q1, my, Entry(Cycle(my, q.n) + 1, v));
    SetTwice(q1, t, EnqFill(v, my, val), EnqReset(v, my));
    Moves(q0, q1, t, EnqFill(v, my, val), Enq(v), q2, EnqReset(v, my));
    var q3 := q2.(threshold := 3 * q.n - 1);
    SetTwice(q2, t, EnqReset(v, my), Returning(Ok));
    Moves(q0, q2, t, EnqReset(v, my), Enq(v), q3, Returning(Ok));
    Returns(q0, q3, t, Ok);
  }

  // Dequeue

  lemma Begins(q0: Queue, q: Queue, t: nat)
    requires Stands(q0, q, t, Resting) && !q.draining && q.threshold >= 0
    ensures Stands(q0, q, t, DeqClaim)
  {
    SetTwice(q, t, Resting, DeqLoadDraining);
    Moves(q0, q, t, Resting, Deq, q, DeqLoadDraining);
    SetTwice(q, t, DeqLoadDraining, DeqLoadThreshold);
    Moves(q0, q, t, DeqLoadDraining, Deq, q, DeqLoadThreshold);
    SetTwice(q, t, DeqLoadThreshold, DeqClaim);
    Moves(q0, q, t, DeqLoadThreshold, Deq, q, DeqClaim);
  }

  /** A claimed position without its item. */
  lemma FindsNothing(q0: Queue, q: Queue, t: nat)
    requires Stands(q0, q, t, DeqClaim) && At(q, q.head).cycle <= Cycle(q.head, q.n)
    ensures Stands(q0, q.(head := q.head + 1), t, DeqRepair(q.head, At(q, q.head).cycle, At(q, q.head).val))
  {
    var q', my := q.(head := q.head + 1), q.head;
    var repair := DeqRepair(my, At(q, my).cycle, At(q, my).val);
    SetTwice(q, t, DeqClaim, DeqLoadSlot(my));
    Moves(q0, q, t, DeqClaim, Deq, q', DeqLoadSlot(my));
    SetTwice(q', t, DeqLoadSlot(my), repair);
    Moves(q0, q', t, DeqLoadSlot(my), Deq, q', repair);
  }

  lemma Repairs(q0: Queue, q: Queue, t: nat, my: nat)
    requires Wf(q) && Stands(q0, q, t, DeqRepair(my, At(q, my).cycle, At(q, my).val))
    ensures Stands(q0, Put(q, my, Entry(Cycle(my + 2 * q.n, q.n), 0)), t, DeqLoadTail(my))
  {
    var repair := DeqRepair(my, At(q, my).cycle, At(q, my).val);
    SetTwice(q, t, repair, DeqLoadTail(my));
    Moves(q0, q, t, repair, Deq, Put(q, my, Entry(Cycle(my + 2 * q.n, q.n), 0)), DeqLoadTail(my));
  }

  lemma RepairFails(q0: Queue, q: Queue, t: nat, my: nat, c: nat, val: nat)
    requires Stands(q0, q, t, DeqRepair(my, c, val)) && At(q, my) != Entry(c, val)
    ensures Stands(q0, q, t, DeqLoadTail(my))
  {
    SetTwice(q, t, DeqRepair(my, c, val), DeqLoadTail(my));
    Moves(q0, q, t, DeqRepair(my, c, val), Deq, q, DeqLoadTail(my));
  }

  lemma SeesLast(q0: Queue, q: Queue, t: nat, my: nat)
    requires Stands(q0, q, t, DeqLoadTail(my)) && q.tail == my + 1
    ensures Stands(q0, q, t, DeqMiss)
  {
    SetTwice(q, t, DeqLoadTail(my), DeqMiss);
    Moves(q0, q, t, DeqLoadTail(my), Deq, q, DeqMiss);
  }

  lemma SeesMore(q0: Queue, q: Queue, t: nat, my: nat)
    requires Stands(q0, q, t, DeqLoadTail(my)) && q.tail > my + 1
    ensures Stands(q0, q, t, DeqCount)
  {
    SetTwice(q, t, DeqLoadTail(my), DeqCount);
    Moves(q0, q, t, DeqLoadTail(my), Deq, q, DeqCount);
  }

  lemma MissReturns(q0: Queue, q: Queue, t: nat)
    requires Stands(q0, q, t, DeqMiss)
    ensures Stands(q0, q.(threshold := q.threshold - 1), t, Resting)
  {
    var q' := q.(threshold := q.threshold - 1);
    SetTwice(q, t, DeqMiss, Returning(WouldBlock));
    Moves(q0, q, t, DeqMiss, Deq, q', Returning(WouldBlock));
    Returns(q0, q', t, WouldBlock);
  }

  lemma CountGoesOn(q0: Queue, q: Queue, t: nat)
    requires Stands(q0, q, t, DeqCount) && q.threshold > 1
    ensures Stands(q0, q.(threshold := q.threshold - 1), t, DeqClaim)
  {
    SetTwice(q, t, DeqCount, DeqClaim);
    Moves(q0, q, t, DeqCount, Deq, q.(threshold := q.threshold - 1), DeqClaim);
  }

  lemma CountReturns(q0: Queue, q: Queue, t: nat)
    requires Stands(q0, q, t, DeqCount) && q.threshold <= 1 && !q.draining
    ensures Stands(q0, q.(threshold := q.threshold - 1), t, Resting)
  {
    var q' := q.(threshold := q.threshold - 1);
    SetTwice(q, t, DeqCount, DeqRecheckDraining);
    Moves(q0, q, t, DeqCount, Deq, q', DeqRecheckDraining);
    SetTwice(q', t, DeqRecheckDraining, Returning(WouldBlock));
    Moves(q0, q', t, DeqRecheckDraining, Deq, q', Returning(WouldBlock));
    Returns(q0, q', t, WouldBlock);
  }

  /** `head` passes a position without an item and frees its slot for the next lap. */
  function Skipped(q: Queue): Queue
    requires Wf(q)
  {
    Put(q.(head := q.head + 1), q.head, Entry(Cycle(q.head + 2 * q.n, q.n), 0))
  }

  /** A miss before the last claimed position, up to its count. */
  lemma Skips(q0: Queue, q: Queue, t: nat)
    requires Stands(q0, q, t, DeqClaim) && At(q, q.head).cycle <= Cycle(q.head, q.n) && q.tail > q.head + 1
    ensures Stands(q0, Skipped(q), t, DeqCount)
  {
    FindsNothing(q0, q, t);
    Repairs(q0, q.(head := q.head + 1), t, q.head);
    SeesMore(q0, Skipped(q), t, q.head);
  }
}
