/**
 What catchup is for: once all calls have returned, `tail` has caught up with `head`, so the
 next Enqueue starts at a position that no consumer has passed.
 */
module MPMCIndirectCatchup {
  import opened Ring
  import opened TwoLap
  import opened MPMCIndirect
  import opened MPMCIndirectProof
  import Loss = MPMCIndirectLoss

  /** A thread at `l` will lift `tail` above `p`, or claim a later position. */
  predicate Works(l: Local, p: nat) {
    || l.DeqClaim? || l.CatchLoadTail? || l.CatchLoadHead?
    || ((l.DeqLoadSlot? || l.DeqTake? || l.DeqRepair? || l.DeqLoadTail?) && l.my >= p)
    || (l.CatchCas? && l.head > p)
  }

  /** The consumer of every position that `tail` has not reached is still at work. */
  ghost predicate CatchInv(m: Run) {
    && Inv(m)
    && (forall p :: m.q.tail <= p < m.q.head ==>
          m.log.cons[p] < |m.q.th| && Works(m.q.th[m.log.cons[p]], p))
    && (forall i :: 0 <= i < |m.q.th| && m.q.th[i].CatchLoadHead? ==> m.q.th[i].tail <= m.q.tail)
  }

  /** The consumer of a position it has claimed goes on with it. */
  lemma WorksOn(m: Run, e: Event, p: nat)
    requires CatchInv(m) && e.t < |m.q.th| && m.q.tail <= p < m.q.head && Works(m.q.th[e.t], p)
    requires Next(m, e).q.tail <= p
    ensures Works(Next(m, e).q.th[e.t], p)
  {
    assert LocalOk(m.q, m.log, e.t);
    if m.q.th[e.t].DeqTake? {
      TakeWorks(m, e, p);
    }
  }

  /** A taken position was claimed by a producer, so `tail` is above it. */
  lemma TakeWorks(m: Run, e: Event, p: nat)
    requires Inv(m) && e.t < |m.q.th| && m.q.th[e.t].DeqTake? && m.q.th[e.t].my >= p && m.q.tail <= p
    ensures Next(m, e).q.th[e.t].DeqClaim?
  {
    assert LocalOk(m.q, m.log, e.t);
    var my := m.q.th[e.t].my;
    if At(m.q, my) == Entry(Cycle(my, m.q.n) + 1, m.q.th[e.t].val) {
      ServesFilled(m, my);
    }
  }

  lemma ClaimRecord(m: Run, e: Event)
    requires WfLog(m) && e.t < |m.q.th|
    ensures var m' := Next(m, e);
      if m.q.th[e.t].DeqClaim? then
        m'.log.cons == m.log.cons + [e.t] && m'.q.head == m.q.head + 1 && m'.q.th[e.t] == DeqLoadSlot(m.q.head)
      else m'.log.cons == m.log.cons && m'.q.head == m.q.head
  {
  }

  lemma LoadsBefore(m: Run, e: Event)
    requires Inv(m) && e.t < |m.q.th| && Next(m, e).q.th[e.t].CatchLoadHead?
    ensures Next(m, e).q.th[e.t].tail == m.q.tail
  {
  }

  lemma CatchStep(m: Run, e: Event)
    requires CatchInv(m)
    ensures CatchInv(Next(m, e))
  {
    StepInv(m, e);
    if e.t < |m.q.th| {
      var m' := Next(m, e);
      Loss.OthersStay(m.q, e);
      IndicesIncrease(m, e);
      ClaimRecord(m, e);
      if m'.q.th[e.t].CatchLoadHead? {
        LoadsBefore(m, e);
      }
      forall p | m'.q.tail <= p < m'.q.head
        ensures m'.log.cons[p] < |m'.q.th| && Works(m'.q.th[m'.log.cons[p]], p)
      {
        if p < m.q.head && m.log.cons[p] == e.t {
          WorksOn(m, e, p);
        }
      }
    }
  }

  lemma {:induction false} CatchRun(m: Run, sched: seq<Event>)
    requires CatchInv(m)
    ensures CatchInv(Final(m, sched))
    decreases sched
  {
    if sched == [] {
    } else {
      CatchStep(m, sched[0]);
      CatchRun(Next(m, sched[0]), sched[1..]);
    }
  }

  /** In every reachable state without a Dequeue under way `tail` is not behind `head`. */
  lemma CaughtUp(n: nat, threads: nat, sched: seq<Event>)
    requires n > 0
    ensures var q := Final(Start(n, threads), sched).q;
      (forall i :: 0 <= i < |q.th| ==> q.th[i].Resting? || q.th[i].Returning?) ==> q.head <= q.tail
  {
    StartInv(n, threads);
    CatchRun(Start(n, threads), sched);
    var m := Final(Start(n, threads), sched);
    if m.q.tail < m.q.head {
      assert Works(m.q.th[m.log.cons[m.q.tail]], m.q.tail);
    }
  }
}
