/**
 The threshold of MPMCIndirect never hides an item with at most `2n - 1` threads: every miss
 that will lower it unconditionally, and every position before the item, is paid for.
 */
module MPMCIndirectThreshold {
  import opened Ring
  import opened TwoLap
  import opened MPMCIndirect
  import opened MPMCIndirectProof
  import Loss = MPMCIndirectLoss

  // How far blind claims can overshoot

  /** Of two positions claimed by one producer the first is at least two below `head + n`. */
  ghost predicate Spaced(m: Run) {
    forall a, b :: a in m.log.prod && b in m.log.prod && a < b && m.log.prod[a] == m.log.prod[b] ==>
      a + 2 <= m.q.head + m.q.n
  }

  /** A consumer that found no claim behind its own and will lower the threshold and return. */
  predicate Leaves(l: Local) {
    l.CatchCas? || l.CatchLoadTail? || l.CatchLoadHead? || l.DeqMiss?
  }

  ghost predicate OwnBelow(m: Run, i: nat, bound: int) {
    forall p :: p in m.log.prod && m.log.prod[p] == i ==> p < bound
  }

  /** What producer `i` knows about the positions it claimed earlier. */
  ghost predicate ClaimOk(m: Run, i: nat)
    requires i < |m.q.th|
  {
    match m.q.th[i]
    case EnqLoadHead(_, tail) => tail <= m.q.tail && OwnBelow(m, i, tail)
    case EnqClaim(_) => OwnBelow(m, i, m.q.head + m.q.n - 1)
    case l => Leaves(l) ==> OwnBelow(m, i, m.q.head)
  }

  ghost predicate SpacedInv(m: Run) {
    && Inv(m) && Spaced(m)
    && (forall p :: p in m.log.prod ==> m.log.prod[p] < |m.q.th|)
    && (forall i :: 0 <= i < |m.q.th| ==> ClaimOk(m, i))
  }

  lemma ClaimRecord(m: Run, e: Event)
    requires WfLog(m) && e.t < |m.q.th|
    ensures Next(m, e).log.prod == if m.q.th[e.t].EnqClaim? then m.log.prod[m.q.tail := e.t] else m.log.prod
  {
  }

  lemma LoadTest(q: Queue, e: Event)
    requires Wf(q) && e.t < |q.th| && Step(q, e).th[e.t].EnqLoadHead?
    ensures Step(q, e).th[e.t].tail == q.tail && !q.th[e.t].EnqClaim?
  {
  }

  lemma ClaimTest(q: Queue, e: Event)
    requires Wf(q) && e.t < |q.th| && Step(q, e).th[e.t].EnqClaim?
    ensures q.th[e.t].EnqLoadHead? && q.th[e.t].tail < q.head + q.n
  {
  }

  lemma LeaveTest(q: Queue, e: Event)
    requires Wf(q) && e.t < |q.th| && !Leaves(q.th[e.t])
    ensures Leaves(Step(q, e).th[e.t]) ==> q.th[e.t].DeqLoadTail? && q.tail <= q.th[e.t].my + 1
  {
    if q.th[e.t].DeqCount? {
      CountStep(q, e);
    } else if Claiming(q.th[e.t]) {
      ClaimingStep(q, e);
    } else if q.th[e.t].DeqLoadTail? || q.th[e.t].EnqReset? {
    } else if Dequeuing(q.th[e.t]) {
      DequeuingStep(q, e);
    } else {
      OtherStep(q, e);
    }
  }

  /** Only a claim adds to the claimed positions; a producer at its claim has passed the test. */
  lemma ClaimStep(m: Run, e: Event)
    requires WfLog(m) && e.t < |m.q.th|
    ensures var l, l', prod := m.q.th[e.t], Next(m, e).q.th[e.t], Next(m, e).log.prod;
      && prod == (if l.EnqClaim? then m.log.prod[m.q.tail := e.t] else m.log.prod)
      && (l'.EnqLoadHead? ==> l'.tail == m.q.tail && !l.EnqClaim?)
      && (l'.EnqClaim? ==> l.EnqLoadHead? && l.tail < m.q.head + m.q.n)
      && (Leaves(l') && !Leaves(l) ==> l.DeqLoadTail? && m.q.tail <= l.my + 1)
  {
    ClaimRecord(m, e);
    if !Leaves(m.q.th[e.t]) { LeaveTest(m.q, e); }
    if Next(m, e).q.th[e.t].EnqLoadHead? { LoadTest(m.q, e); }
    if Next(m, e).q.th[e.t].EnqClaim? { ClaimTest(m.q, e); }
  }

  lemma OwnClaims(m: Run, e: Event)
    requires SpacedInv(m) && e.t < |m.q.th| && Inv(Next(m, e))
    ensures ClaimOk(Next(m, e), e.t)
  {
    ClaimStep(m, e);
    IndicesIncrease(m, e);
    assert ClaimOk(m, e.t) && LocalOk(m.q, m.log, e.t);
  }

  lemma OtherClaims(m: Run, e: Event, i: nat)
    requires SpacedInv(m) && e.t < |m.q.th| && i < |m.q.th| && i != e.t && Inv(Next(m, e))
    ensures ClaimOk(Next(m, e), i)
  {
    ClaimStep(m, e);
    IndicesIncrease(m, e);
    Loss.OthersStay(m.q, e);
    assert ClaimOk(m, i);
  }

  lemma SpacedStep(m: Run, e: Event)
    requires SpacedInv(m)
    ensures SpacedInv(Next(m, e))
  {
    StepInv(m, e);
    IndicesIncrease(m, e);
    if e.t < |m.q.th| {
      var m' := Next(m, e);
      ClaimStep(m, e);
      assert ClaimOk(m, e.t);
      forall i | 0 <= i < |m'.q.th|
        ensures ClaimOk(m', i)
      {
        if i == e.t { OwnClaims(m, e); } else { OtherClaims(m, e, i); }
      }
    }
  }

  // Counting threads

  function Tally(th: seq<Local>, f: Local -> bool): nat {
    if th == [] then 0 else Tally(th[..|th| - 1], f) + if f(th[|th| - 1]) then 1 else 0
  }

  lemma {:induction false} TallyUpdate(th: seq<Local>, t: nat, l: Local, f: Local -> bool)
    requires t < |th|
    ensures Tally(th[t := l], f) + (if f(th[t]) then 1 else 0) == Tally(th, f) + (if f(l) then 1 else 0)
    decreases |th|
  {
    var last := |th| - 1;
    if t == last {
      assert th[t := l][..last] == th[..last];
    } else {
      assert th[t := l][..last] == th[..last][t := l];
      TallyUpdate(th[..last], t, l, f);
    }
  }

  lemma {:induction false} TallyNone(th: seq<Local>, f: Local -> bool)
    requires forall i :: 0 <= i < |th| ==> !f(th[i])
    ensures Tally(th, f) == 0
    decreases |th|
  {
    if th == [] {
    } else {
      TallyNone(th[..|th| - 1], f);
    }
  }

  /** Distinct threads outside `f` and those in `f` are at most all threads. */
  lemma {:induction false} Crowd(th: seq<Local>, s: seq<nat>, f: Local -> bool)
    requires forall k :: 0 <= k < |s| ==> s[k] < |th| && !f(th[s[k]])
    requires forall a, b :: 0 <= a < b < |s| ==> s[a] != s[b]
    ensures |s| + Tally(th, f) <= |th|
    decreases |th|
  {
    if th == [] {
    } else {
      var last := |th| - 1;
      if f(th[last]) || s == [] {
        Crowd(th[..last], s, f);
      } else {
        var end := s[|s| - 1];
        Crowd(th[..last], seq(|s| - 1, k requires 0 <= k < |s| - 1 => if s[k] == last then end else s[k]), f);
      }
    }
  }

  // How far blind claims can overshoot while threads are leaving

  /** With `P` threads, `tail` exceeds `head + n` by at most `P - 1`, less the threads that are leaving. */
  lemma Overshoot(m: Run)
    requires SpacedInv(m)
    ensures m.q.tail + Tally(m.q.th, Leaves) < m.q.head + m.q.n + |m.q.th|
  {
    var lo := m.q.head + m.q.n - 1;
    var over := if m.q.tail > lo then m.q.tail - lo else 0;
    var s := seq(over, k requires 0 <= k < over => m.log.prod[lo + k]);
    forall k | 0 <= k < |s|
      ensures !Leaves(m.q.th[s[k]])
    {
      assert ClaimOk(m, s[k]);
    }
    forall a, b | 0 <= a < b < |s|
      ensures s[a] != s[b]
    {
      assert s[a] == m.log.prod[lo + a] && s[b] == m.log.prod[lo + b];
    }
    Crowd(m.q.th, s, Leaves);
  }

  // The budget

  ghost predicate Resetting(q: Queue) {
    exists i :: 0 <= i < |q.th| && q.th[i].EnqReset?
  }

  predicate Claiming(l: Local) {
    l.DeqClaim?
  }

  /**
   The threads about to claim will reach the item at `p`, or the threshold outlasts the
   threads that are leaving and the positions before the item that are left to others.
   */
  ghost predicate Covered(m: Run, p: nat) {
    var leaving, claiming := Tally(m.q.th, Leaves), Tally(m.q.th, Claiming);
    p - m.q.head < claiming || m.q.threshold >= leaving + p - m.q.head - claiming + 2
  }

  /** Every item from `head` on is covered, or the threshold is about to be reset. */
  ghost predicate Budget(m: Run) {
    && SpacedInv(m) && |m.q.th| <= 2 * m.q.n - 1
    && (Resetting(m.q) || forall p :: p in m.log.filled && p >= m.q.head ==> Covered(m, p))
  }

  /** A reset covers everything. */
  lemma ResetCovers(m: Run, e: Event)
    requires Budget(m) && e.t < |m.q.th| && m.q.th[e.t].EnqReset? && SpacedInv(Next(m, e))
    ensures Budget(Next(m, e))
  {
    Overshoot(Next(m, e));
  }

  /** A count lowers the threshold, and goes on to claim unless it is spent. */
  lemma CountStep(q: Queue, e: Event)
    requires Wf(q) && e.t < |q.th| && q.th[e.t].DeqCount?
    ensures var q' := Step(q, e);
      && q'.head == q.head && q'.threshold == q.threshold - 1 && !Leaves(q'.th[e.t])
      && (Claiming(q'.th[e.t]) <==> q.threshold > 1)
  {
  }

  lemma ClaimingStep(q: Queue, e: Event)
    requires Wf(q) && e.t < |q.th| && Claiming(q.th[e.t])
    ensures var q' := Step(q, e);
      q'.head == q.head + 1 && q'.threshold == q.threshold && !Leaves(q'.th[e.t]) && !Claiming(q'.th[e.t])
  {
  }

  lemma LeavingStep(q: Queue, e: Event)
    requires Wf(q) && e.t < |q.th| && Leaves(q.th[e.t])
    ensures var q' := Step(q, e);
      && q'.head == q.head && !Claiming(q'.th[e.t])
      && q'.threshold == q.threshold - (if Leaves(q'.th[e.t]) then 0 else 1)
  {
  }

  /** Inside a call, other than the steps above. */
  predicate Dequeuing(l: Local) {
    || l.DeqLoadDraining? || l.DeqLoadThreshold? || l.DeqLoadSlot? || l.DeqTake? || l.DeqRepair? || l.DeqLoadTail?
    || l.DeqRecheckDraining?
  }

  lemma DequeuingStep(q: Queue, e: Event)
    requires Wf(q) && e.t < |q.th| && Dequeuing(q.th[e.t])
    requires q.th[e.t].DeqLoadTail? ==> q.tail > q.th[e.t].my + 1
    ensures var q' := Step(q, e); q'.head == q.head && q'.threshold == q.threshold && !Leaves(q'.th[e.t])
  {
  }

  lemma OtherStep(q: Queue, e: Event)
    requires Wf(q) && e.t < |q.th| && !Dequeuing(q.th[e.t]) && !Leaves(q.th[e.t]) && !Claiming(q.th[e.t])
    requires !q.th[e.t].DeqCount? && !q.th[e.t].EnqReset?
    ensures var q' := Step(q, e);
      q'.head == q.head && q'.threshold == q.threshold && !Leaves(q'.th[e.t]) && !Claiming(q'.th[e.t])
  {
  }

  /** A step that is not a reset keeps an item covered. */
  lemma KeepsCovered(m: Run, e: Event, p: nat)
    requires SpacedInv(m) && e.t < |m.q.th| && !m.q.th[e.t].EnqReset?
    requires p in m.log.filled && p >= Next(m, e).q.head && p >= m.q.head && Covered(m, p)
    ensures Covered(Next(m, e), p)
  {
    var q, l' := m.q, Next(m, e).q.th[e.t];
    Loss.OthersStay(q, e);
    TallyUpdate(q.th, e.t, l', Leaves);
    TallyUpdate(q.th, e.t, l', Claiming);
    assert LocalOk(q, m.log, e.t);
    if q.th[e.t].DeqCount? {
      CountStep(q, e);
    } else if Claiming(q.th[e.t]) {
      ClaimingStep(q, e);
    } else if Leaves(q.th[e.t]) {
      LeavingStep(q, e);
    } else if Dequeuing(q.th[e.t]) {
      DequeuingStep(q, e);
    } else {
      OtherStep(q, e);
    }
  }

  lemma OtherCovered(m: Run, e: Event)
    requires Budget(m) && e.t < |m.q.th| && !m.q.th[e.t].EnqReset? && SpacedInv(Next(m, e))
    ensures Budget(Next(m, e))
  {
    var m' := Next(m, e);
    Loss.OthersStay(m.q, e);
    EnqueueExact(m, e);
    IndicesIncrease(m, e);
    if Resetting(m.q) {
      var i :| 0 <= i < |m.q.th| && m.q.th[i].EnqReset?;
      assert m'.q.th[i].EnqReset?;
    } else if m'.q.th[e.t].EnqReset? {
      assert Resetting(m'.q);
    } else {
      forall p | p in m'.log.filled && p >= m'.q.head
        ensures Covered(m', p)
      {
        KeepsCovered(m, e, p);
      }
    }
  }

  lemma BudgetStep(m: Run, e: Event)
    requires Budget(m)
    ensures Budget(Next(m, e))
  {
    SpacedStep(m, e);
    if e.t < |m.q.th| {
      if m.q.th[e.t].EnqReset? {
        ResetCovers(m, e);
      } else {
        OtherCovered(m, e);
      }
    }
  }

  lemma {:induction false} BudgetRun(m: Run, sched: seq<Event>)
    requires Budget(m)
    ensures Budget(Final(m, sched))
    decreases sched
  {
    if sched == [] {
    } else {
      BudgetStep(m, sched[0]);
      BudgetRun(Next(m, sched[0]), sched[1..]);
    }
  }

  ghost predicate Quiet(q: Queue) {
    forall i :: 0 <= i < |q.th| ==> q.th[i].Resting?
  }

  /**
   With at most `2n - 1` threads, in every quiet reachable state: an item from `head` on is
   covered by the threshold, with two to spare.
   */
  lemma ThresholdHonest(n: nat, threads: nat, sched: seq<Event>, p: nat)
    requires n > 0 && threads <= 2 * n - 1
    ensures var m := Final(Start(n, threads), sched);
      Quiet(m.q) && p in m.log.filled && p >= m.q.head ==> m.q.threshold >= p - m.q.head + 2
  {
    StartInv(n, threads);
    BudgetRun(Start(n, threads), sched);
    var m := Final(Start(n, threads), sched);
    if Quiet(m.q) && p in m.log.filled && p >= m.q.head {
      assert Covered(m, p);
      TallyNone(m.q.th, Leaves);
      TallyNone(m.q.th, Claiming);
    }
  }
}
