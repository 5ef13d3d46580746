/**
 A thread that calls Dequeue of MPMCIndirect while all others stand still: it gets to the next
 item exactly if the threshold is not less than the number of positions before it.
 */
module MPMCIndirectSolo {
  import opened Ring
  import opened TwoLap
  import opened MPMCIndirect
  import opened MPMCIndirectProof
  import opened MPMCIndirectDrain
  import Threshold = MPMCIndirectThreshold

  /** `p` holds the first item from `head` on. */
  ghost predicate FirstItem(m: Run, p: nat) {
    && p in m.log.filled && m.q.head <= p
    && forall q :: m.q.head <= q < p ==> q !in m.log.filled
  }

  /** Thread `t` makes `k` steps, calling Dequeue again and again. */
  function Solo(m: Run, t: nat, k: nat): (r: Run)
    requires WfLog(m)
    ensures WfLog(r) && |r.q.th| == |m.q.th|
    decreases k
  {
    if k == 0 then m else Solo(Go(m, t), t, k - 1)
  }

  /** Between two claims, outside the loop. */
  predicate Outside(l: Local) {
    l.Resting? || l.Returning? || l.DeqRecheckDraining? || l.DeqLoadDraining? || l.DeqLoadThreshold?
  }

  /** A step outside the loop changes nothing but where the thread stands. */
  lemma OutsideStep(m: Run, t: nat)
    requires WfLog(m) && t < |m.q.th| && Outside(m.q.th[t])
    ensures var m' := Go(m, t);
      && m'.q == Goto(m.q, t, m'.q.th[t]) && m'.log == m.log
      && m'.q.th[t] ==
           match m.q.th[t]
           case Resting => DeqLoadDraining
           case Returning(_) => Resting
           case DeqLoadDraining => if m.q.draining then DeqClaim else DeqLoadThreshold
           case DeqLoadThreshold => if m.q.threshold < 0 then Returning(WouldBlock) else DeqClaim
           case _ => if m.q.draining then DeqClaim else Returning(WouldBlock)
  {
  }

  /** A step inside the loop, up to the count. */
  lemma LoopStep(m: Run, t: nat)
    requires WfLog(m) && t < |m.q.th| && (m.q.th[t].DeqRepair? || m.q.th[t].DeqLoadTail? || m.q.th[t].DeqCount?)
    requires m.q.th[t].DeqLoadTail? ==> m.q.tail > m.q.th[t].my + 1
    ensures var m' := Go(m, t);
      && m'.q.n == m.q.n && |m'.q.th| == |m.q.th| && m'.q.head == m.q.head && m'.q.tail == m.q.tail
      && m'.q.draining == m.q.draining && m'.log.filled == m.log.filled
      && m'.q.threshold == m.q.threshold - (if m.q.th[t].DeqCount? then 1 else 0)
      && m'.q.th[t] ==
           match m.q.th[t]
           case DeqRepair(my, _, _) => DeqLoadTail(my)
           case DeqLoadTail(_) => DeqCount
           case _ => if m.q.threshold > 1 then DeqClaim else DeqRecheckDraining
  {
  }

  /** A claim and the load of its slot. */
  lemma SlotStep(m: Run, t: nat)
    requires WfLog(m) && t < |m.q.th| && (m.q.th[t].DeqClaim? || m.q.th[t].DeqLoadSlot?)
    requires m.q.th[t].DeqLoadSlot? ==> At(m.q, m.q.th[t].my).cycle <= Cycle(m.q.th[t].my, m.q.n) + 1
    ensures var m' := Go(m, t);
      && m'.q.n == m.q.n && |m'.q.th| == |m.q.th| && m'.q.slots == m.q.slots && m'.q.tail == m.q.tail
      && m'.q.draining == m.q.draining && m'.q.threshold == m.q.threshold && m'.log.filled == m.log.filled
      && m'.q.head == m.q.head + (if m.q.th[t].DeqClaim? then 1 else 0)
      && m'.q.th[t] ==
           if m.q.th[t].DeqClaim? then DeqLoadSlot(m.q.head) else
           var my := m.q.th[t].my;
           var w := At(m.q, my);
           if w.cycle == Cycle(my, m.q.n) + 1 then DeqTake(my, w.val) else DeqRepair(my, w.cycle, w.val)
  {
  }

  // Too few: the item is never reached

  /** At its own pace thread `t` will spend the threshold before it reaches `p`. */
  ghost predicate Doomed(m: Run, t: nat, p: nat) {
    && Inv(m) && t < |m.q.th| && !m.q.draining && FirstItem(m, p)
    && var left := p - m.q.head;
       match m.q.th[t]
       case Resting => m.q.threshold < left || m.q.threshold < 0
       case Returning(_) => m.q.threshold < left || m.q.threshold < 0
       case DeqRecheckDraining => m.q.threshold < left || m.q.threshold < 0
       case DeqLoadDraining => m.q.threshold < left || m.q.threshold < 0
       case DeqLoadThreshold => m.q.threshold < left || m.q.threshold < 0
       case DeqClaim => 0 <= m.q.threshold < left
       case DeqLoadSlot(my) =>
         my + 1 == m.q.head && 0 <= m.q.threshold <= left && At(m.q, my).cycle <= Cycle(my, m.q.n)
       case DeqRepair(my, _, _) => my + 1 == m.q.head && 0 <= m.q.threshold <= left
       case DeqLoadTail(my) => my + 1 == m.q.head && 0 <= m.q.threshold <= left
       case DeqCount => 0 <= m.q.threshold <= left
       case _ => false
  }

  lemma DoomedStep(m: Run, t: nat, p: nat)
    requires Doomed(m, t, p)
    ensures Doomed(Go(m, t), t, p)
  {
    StepInv(m, Event(t, Deq));
    if Outside(m.q.th[t]) {
      OutsideStep(m, t);
    } else if m.q.th[t].DeqClaim? || m.q.th[t].DeqLoadSlot? {
      if m.q.th[t].DeqClaim? {
        ClaimedSlot(m, m.q.head);
      }
      SlotStep(m, t);
    } else {
      LoopStep(m, t);
    }
  }

  lemma {:induction false} DoomedForever(m: Run, t: nat, p: nat, k: nat)
    requires Doomed(m, t, p)
    ensures Doomed(Solo(m, t, k), t, p)
    decreases k
  {
    if k == 0 {
    } else {
      DoomedStep(m, t, p);
      DoomedForever(Go(m, t), t, p, k - 1);
    }
  }

  // Enough: the item is reached

  /** At its own pace thread `t` will reach `p` before it spends the threshold. */
  ghost predicate Due(m: Run, t: nat, p: nat) {
    && Inv(m) && t < |m.q.th| && !m.q.draining && p in m.log.filled
    && (m.q.head <= p ==> FirstItem(m, p))
    && var left := p - m.q.head;
       match m.q.th[t]
       case Resting => 0 <= left <= m.q.threshold
       case Returning(_) => 0 <= left <= m.q.threshold
       case DeqRecheckDraining => 0 <= left <= m.q.threshold
       case DeqLoadDraining => 0 <= left <= m.q.threshold
       case DeqLoadThreshold => 0 <= left <= m.q.threshold
       case DeqClaim => 0 <= left <= m.q.threshold
       case DeqLoadSlot(my) =>
         && my + 1 == m.q.head
         && if my == p then At(m.q, p) == Entry(Cycle(p, m.q.n) + 1, m.log.filled[p])
            else 0 <= left < m.q.threshold && At(m.q, my).cycle <= Cycle(my, m.q.n)
       case DeqTake(my, val) => my == p && At(m.q, p) == Entry(Cycle(p, m.q.n) + 1, val)
       case DeqRepair(my, _, _) => my + 1 == m.q.head && 0 <= left < m.q.threshold
       case DeqLoadTail(my) => my + 1 == m.q.head && 0 <= left < m.q.threshold
       case DeqCount => 0 <= left < m.q.threshold
       case _ => false
  }

  /** Steps left before the next claim. */
  function Rank(l: Local): nat {
    match l
    case DeqLoadSlot(_) => 12
    case DeqTake(_, _) => 11
    case DeqRepair(_, _, _) => 11
    case DeqLoadTail(_) => 10
    case DeqCount => 9
    case DeqRecheckDraining => 8
    case Returning(_) => 7
    case Resting => 6
    case DeqLoadDraining => 5
    case DeqLoadThreshold => 4
    case _ => 3
  }

  /** Closer to the item, or to the next claim. */
  ghost predicate Closer(m: Run, m': Run, t: nat)
    requires t < |m.q.th| && t < |m'.q.th|
  {
    m'.q.head > m.q.head || (m'.q.head == m.q.head && Rank(m'.q.th[t]) < Rank(m.q.th[t]))
  }

  lemma DueStep(m: Run, t: nat, p: nat)
    requires Due(m, t, p) && !m.q.th[t].DeqTake?
    ensures Due(Go(m, t), t, p) && Closer(m, Go(m, t), t)
  {
    StepInv(m, Event(t, Deq));
    if Outside(m.q.th[t]) {
      OutsideStep(m, t);
    } else if m.q.th[t].DeqClaim? || m.q.th[t].DeqLoadSlot? {
      if m.q.th[t].DeqClaim? {
        ClaimedSlot(m, m.q.head);
      }
      SlotStep(m, t);
    } else {
      LoopStep(m, t);
    }
  }

  lemma TakeStep(m: Run, t: nat, p: nat, v: nat)
    requires WfLog(m) && t < |m.q.th| && m.q.th[t] == DeqTake(p, v) && At(m.q, p) == Entry(Cycle(p, m.q.n) + 1, v)
    ensures p in Go(m, t).log.got && Go(m, t).q.th[t] == Returning(Got(v)) && |Go(m, t).q.th| == |m.q.th|
  {
  }

  lemma {:induction false} DueArrives(m: Run, t: nat, p: nat) returns (k: nat)
    requires Due(m, t, p)
    ensures p in Solo(m, t, k).log.got
    decreases p + 1 - m.q.head, Rank(m.q.th[t])
  {
    if m.q.th[t].DeqTake? {
      TakeStep(m, t, p, m.q.th[t].val);
      k := 1;
      assert Solo(m, t, 1) == Solo(Go(m, t), t, 0);
    } else {
      DueStep(m, t, p);
      k := DueArrives(Go(m, t), t, p);
      k := k + 1;
    }
  }

  /**
   From every state of a run: a thread at rest that keeps calling Dequeue alone gets the next
   item iff the threshold is not less than the number of positions before it.
   */
  lemma GetsIff(m: Run, t: nat, p: nat)
    requires Inv(m) && t < |m.q.th| && m.q.th[t].Resting? && !m.q.draining && FirstItem(m, p)
    ensures (exists k: nat :: p in Solo(m, t, k).log.got) <==> m.q.threshold >= p - m.q.head
  {
    if m.q.threshold >= p - m.q.head {
      var k := DueArrives(m, t, p);
    } else {
      forall k: nat
        ensures p !in Solo(m, t, k).log.got
      {
        DoomedForever(m, t, p, k);
      }
    }
  }

  // Plenty: the first call returns it

  /** As `Due`, with so much to spare that no count ends the call. */
  ghost predicate Prompt(m: Run, t: nat, p: nat) {
    && Inv(m) && t < |m.q.th| && p in m.log.filled
    && (m.q.head <= p ==> FirstItem(m, p))
    && var left := p - m.q.head;
       match m.q.th[t]
       case Resting => 0 <= left < m.q.threshold
       case DeqLoadDraining => 0 <= left < m.q.threshold
       case DeqLoadThreshold => 0 <= left < m.q.threshold
       case DeqClaim => 0 <= left < m.q.threshold
       case DeqLoadSlot(my) =>
         && my + 1 == m.q.head
         && if my == p then At(m.q, p) == Entry(Cycle(p, m.q.n) + 1, m.log.filled[p])
            else 0 <= left < m.q.threshold - 1 && At(m.q, my).cycle <= Cycle(my, m.q.n)
       case DeqTake(my, val) =>
         my == p && val == m.log.filled[p] && At(m.q, p) == Entry(Cycle(p, m.q.n) + 1, val)
       case DeqRepair(my, _, _) => my + 1 == m.q.head && 0 <= left < m.q.threshold - 1
       case DeqLoadTail(my) => my + 1 == m.q.head && 0 <= left < m.q.threshold - 1
       case DeqCount => 0 <= left < m.q.threshold - 1
       case _ => false
  }

  lemma PromptStep(m: Run, t: nat, p: nat)
    requires Prompt(m, t, p) && !m.q.th[t].DeqTake?
    ensures Prompt(Go(m, t), t, p) && Closer(m, Go(m, t), t) && Go(m, t).log.filled == m.log.filled
  {
    StepInv(m, Event(t, Deq));
    if Outside(m.q.th[t]) {
      OutsideStep(m, t);
    } else if m.q.th[t].DeqClaim? || m.q.th[t].DeqLoadSlot? {
      if m.q.th[t].DeqClaim? {
        ClaimedSlot(m, m.q.head);
      }
      SlotStep(m, t);
    } else {
      LoopStep(m, t);
    }
  }

  lemma {:induction false} PromptReturns(m: Run, t: nat, p: nat) returns (k: nat)
    requires Prompt(m, t, p)
    ensures Results(m, t, k) == [Got(m.log.filled[p])]
    decreases p + 1 - m.q.head, Rank(m.q.th[t])
  {
    if m.q.th[t].DeqTake? {
      TakeStep(m, t, p, m.q.th[t].val);
      SilentResult(m, t, 1);
      OneResult(Go(m, t), t, 0);
      k := 2;
    } else {
      PromptStep(m, t, p);
      k := PromptReturns(Go(m, t), t, p);
      SilentResult(m, t, k);
      k := k + 1;
    }
  }

  /**
   With at most `2n - 1` threads, in every quiet reachable state: if there is an item from
   `head` on, a Dequeue running alone returns the first one, with or without Drain.
   */
  lemma LoneDequeueDelivers(n: nat, threads: nat, sched: seq<Event>, t: nat, p: nat)
    requires n > 0 && t < threads <= 2 * n - 1
    requires Threshold.Quiet(Final(Start(n, threads), sched).q) && FirstItem(Final(Start(n, threads), sched), p)
    ensures var m := Final(Start(n, threads), sched); Yields(m, t, [Got(m.log.filled[p])])
  {
    StartInv(n, threads);
    RunInv(Start(n, threads), sched);
    Threshold.ThresholdHonest(n, threads, sched, p);
    var k := PromptReturns(Final(Start(n, threads), sched), t, p);
  }
}
