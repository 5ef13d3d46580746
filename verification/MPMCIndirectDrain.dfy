/**
 Draining MPMCIndirect: once Drain was called, a thread that runs alone receives every item at
 a position not below `head`, in order, before its first refusal.
 */
module MPMCIndirectDrain {
  import opened Ring
  import opened TwoLap
  import opened MPMCIndirect
  import opened MPMCIndirectProof
  import opened MPMCIndirectLoss

  /** The results that thread `t` returns in `k` steps on its own, calling Dequeue again and again. */
  function Results(m: Run, t: nat, k: nat): seq<Res>
    requires WfLog(m) && t < |m.q.th|
    decreases k
  {
    if k == 0 then []
    else (if m.q.th[t].Returning? then [m.q.th[t].res] else []) + Results(Next(m, Event(t, Deq)), t, k - 1)
  }

  /** Thread `t`, running alone, returns exactly `res` at some point, in this order. */
  ghost predicate Yields(m: Run, t: nat, res: seq<Res>)
    requires WfLog(m) && t < |m.q.th|
  {
    exists k: nat :: Results(m, t, k) == res
  }

  /** The items stored at positions `[lo, hi)`, in position order; abandoned positions are skipped. */
  function Items(filled: map<nat, nat>, lo: nat, hi: nat): seq<Res>
    decreases hi - lo
  {
    if lo >= hi then []
    else (if lo in filled then [Got(filled[lo])] else []) + Items(filled, lo + 1, hi)
  }

  /** The queue is draining and thread `t` is about to move alone, wherever the others stand still. */
  ghost predicate Lone(m: Run, t: nat) {
    Inv(m) && t < |m.q.th| && m.q.draining
  }

  /** What a drain must not change. */
  ghost predicate Keeps(m: Run, m': Run, t: nat) {
    Lone(m', t) && m'.q.n == m.q.n && |m'.q.th| == |m.q.th| && m'.log.filled == m.log.filled && m'.q.tail == m.q.tail
  }

  function Go(m: Run, t: nat): Run
    requires WfLog(m)
  {
    Next(m, Event(t, Deq))
  }

  lemma LoneStep(m: Run, t: nat)
    requires Lone(m, t) && !m.q.th[t].StoreDraining?
    ensures Lone(Go(m, t), t) && Go(m, t).q.n == m.q.n && |Go(m, t).q.th| == |m.q.th|
  {
    StepInv(m, Event(t, Deq));
    OthersStay(m.q, Event(t, Deq));
    DrainingStays(m.q, Event(t, Deq));
  }

  lemma DrainingStays(q: Queue, e: Event)
    requires Wf(q) && q.draining
    ensures Step(q, e).draining
  {
  }

  lemma Claims(m: Run, t: nat)
    requires Lone(m, t) && m.q.th[t].DeqClaim?
    ensures var m' := Go(m, t);
      && Keeps(m, m', t) && m'.q.th[t] == DeqLoadSlot(m.q.head)
      && m'.q.head == m.q.head + 1 && m'.q.slots == m.q.slots && m'.log.at == m.log.at
  {
    LoneStep(m, t);
  }

  /** The slot of a freshly claimed position holds its item, or something older. */
  lemma ClaimedSlot(m: Run, my: nat)
    requires Inv(m) && my == m.q.head
    ensures my in m.log.filled ==> At(m.q, my) == Entry(Cycle(my, m.q.n) + 1, m.log.filled[my])
    ensures my !in m.log.filled ==> At(m.q, my).cycle <= Cycle(my, m.q.n)
  {
    var j := Place(my, m.q.n);
    assert SlotOk(m.q, m.log, j);
    if my in m.log.filled {
      Intact(m, my);
    } else if my < m.log.at[j] {
      SamePlace(my, m.log.at[j], m.q.n);
    } else if m.log.at[j] < my {
      SamePlace(m.log.at[j], my, m.q.n);
    }
  }

  lemma LoadsItem(m: Run, t: nat, my: nat, v: nat)
    requires Lone(m, t) && m.q.th[t] == DeqLoadSlot(my) && At(m.q, my) == Entry(Cycle(my, m.q.n) + 1, v)
    ensures var m' := Go(m, t);
      && Keeps(m, m', t) && m'.q.th[t] == DeqTake(my, v)
      && m'.q.head == m.q.head && m'.q.slots == m.q.slots
  {
    LoneStep(m, t);
  }

  lemma Takes(m: Run, t: nat, my: nat, v: nat)
    requires Lone(m, t) && m.q.th[t] == DeqTake(my, v) && At(m.q, my) == Entry(Cycle(my, m.q.n) + 1, v)
    ensures var m' := Go(m, t);
      Keeps(m, m', t) && m'.q.th[t] == Returning(Got(v)) && m'.q.head == m.q.head && my in m'.log.got
  {
    LoneStep(m, t);
  }

  /** Return, call Dequeue again, and skip the threshold test because the queue is draining. */
  lemma Again(m: Run, t: nat)
    requires Lone(m, t) && (m.q.th[t].Returning? || m.q.th[t].Resting? || m.q.th[t].DeqLoadDraining?)
    ensures var m' := Go(m, t);
      && Keeps(m, m', t) && m'.q.head == m.q.head
      && m'.q.th[t] ==
           if m.q.th[t].Returning? then Resting else if m.q.th[t].Resting? then DeqLoadDraining else DeqClaim
  {
    LoneStep(m, t);
  }

  lemma LoadsNothing(m: Run, t: nat, my: nat)
    requires Lone(m, t) && m.q.th[t] == DeqLoadSlot(my) && At(m.q, my).cycle <= Cycle(my, m.q.n)
    ensures var m' := Go(m, t);
      && Keeps(m, m', t) && m'.q.th[t].DeqRepair? && m'.q.th[t].my == my
      && m'.q.head == m.q.head
  {
    LoneStep(m, t);
  }

  lemma Repairs(m: Run, t: nat)
    requires Lone(m, t) && m.q.th[t].DeqRepair?
    ensures var m' := Go(m, t); Keeps(m, m', t) && m'.q.th[t] == DeqLoadTail(m.q.th[t].my) && m'.q.head == m.q.head
  {
    LoneStep(m, t);
  }

  lemma OneResult(m: Run, t: nat, k: nat)
    requires WfLog(m) && t < |m.q.th|
    ensures Results(m, t, k + 1) ==
      (if m.q.th[t].Returning? then [m.q.th[t].res] else []) + Results(Go(m, t), t, k)
  {
  }

  lemma SilentResult(m: Run, t: nat, k: nat)
    requires WfLog(m) && t < |m.q.th| && !m.q.th[t].Returning?
    ensures Results(m, t, k + 1) == Results(Go(m, t), t, k)
  {
    OneResult(m, t, k);
  }

  /** Three steps of thread `t`. */
  function Go3(m: Run, t: nat): Run
    requires WfLog(m)
  {
    Go(Go(Go(m, t), t), t)
  }

  /** An item at the claimed position is taken. */
  lemma Hit(m: Run, t: nat)
    requires Lone(m, t) && m.q.th[t].DeqClaim? && m.q.head in m.log.filled
    ensures var m' := Go3(m, t);
      && Keeps(m, m', t) && m'.q.head == m.q.head + 1
      && m'.q.th[t] == Returning(Got(m.log.filled[m.q.head])) && m.q.head in m'.log.got
    ensures forall k: nat {:trigger Results(Go3(m, t), t, k)} :: Results(m, t, k + 3) == Results(Go3(m, t), t, k)
  {
    var my, v := m.q.head, m.log.filled[m.q.head];
    ClaimedSlot(m, my);
    var m1 := Go(m, t); Claims(m, t);
    var m2 := Go(m1, t); LoadsItem(m1, t, my, v);
    Takes(m2, t, my, v);
    forall k: nat
      ensures Results(m, t, k + 3) == Results(Go3(m, t), t, k)
    {
      SilentResult(m, t, k + 2);
      SilentResult(m1, t, k + 1);
      SilentResult(m2, t, k);
    }
  }

  /** The call returns its result and the next one begins. */
  lemma CallsAgain(m: Run, t: nat)
    requires Lone(m, t) && m.q.th[t].Returning?
    ensures var m' := Go3(m, t);
      Keeps(m, m', t) && m'.q.head == m.q.head && m'.q.th[t].DeqClaim?
    ensures forall k: nat {:trigger Results(Go3(m, t), t, k)} ::
      Results(m, t, k + 3) == [m.q.th[t].res] + Results(Go3(m, t), t, k)
  {
    var m1 := Go(m, t); Again(m, t);
    var m2 := Go(m1, t); Again(m1, t);
    Again(m2, t);
    forall k: nat
      ensures Results(m, t, k + 3) == [m.q.th[t].res] + Results(Go3(m, t), t, k)
    {
      OneResult(m, t, k + 2);
      SilentResult(m1, t, k + 1);
      SilentResult(m2, t, k);
    }
  }

  /** A claimed position without an item is repaired. */
  lemma Skips(m: Run, t: nat)
    requires Lone(m, t) && m.q.th[t].DeqClaim? && m.q.head !in m.log.filled
    ensures var m' := Go3(m, t);
      Keeps(m, m', t) && m'.q.th[t] == DeqLoadTail(m.q.head) && m'.q.head == m.q.head + 1
    ensures forall k: nat {:trigger Results(Go3(m, t), t, k)} :: Results(m, t, k + 3) == Results(Go3(m, t), t, k)
  {
    ClaimedSlot(m, m.q.head);
    var m1 := Go(m, t); Claims(m, t);
    var m2 := Go(m1, t); LoadsNothing(m1, t, m.q.head);
    Repairs(m2, t);
    forall k: nat
      ensures Results(m, t, k + 3) == Results(Go3(m, t), t, k)
    {
      SilentResult(m, t, k + 2);
      SilentResult(m1, t, k + 1);
      SilentResult(m2, t, k);
    }
  }

  lemma Counts(m: Run, t: nat)
    requires Lone(m, t) && m.q.th[t].DeqLoadTail? && m.q.tail > m.q.th[t].my + 1
    ensures var m' := Go(m, t);
      Keeps(m, m', t) && m'.q.th[t].DeqCount? && m'.q.head == m.q.head
  {
    LoneStep(m, t);
  }

  lemma Counted(m: Run, t: nat)
    requires Lone(m, t) && (m.q.th[t].DeqCount? || m.q.th[t].DeqRecheckDraining?)
    ensures var m' := Go(m, t);
      && Keeps(m, m', t) && m'.q.head == m.q.head
      && (m'.q.th[t].DeqClaim? || (m.q.th[t].DeqCount? && m'.q.th[t].DeqRecheckDraining?))
  {
    LoneStep(m, t);
  }

  /** Nothing remains: the call refuses. */
  lemma Refuses(m: Run, t: nat) returns (k: nat)
    requires Lone(m, t) && m.q.th[t].DeqLoadTail? && m.q.tail <= m.q.th[t].my + 1
    ensures Results(m, t, k) == [WouldBlock]
  {
    var m1 := Go(m, t); LoneStep(m, t);
    assert m1.q.th[t] == Catchup(m.q.tail, m.q.th[t].my + 1) && m1.q.tail == m.q.tail;
    if m1.q.th[t].CatchCas? {
      var m2 := Go(m1, t); LoneStep(m1, t);
      MissReturns(m2, t);
      SilentResult(m1, t, 2);
      k := 4;
    } else {
      MissReturns(m1, t);
      k := 3;
    }
    SilentResult(m, t, k - 1);
  }

  lemma MissReturns(m: Run, t: nat)
    requires Lone(m, t) && m.q.th[t].DeqMiss?
    ensures Results(m, t, 2) == [WouldBlock]
  {
    SilentResult(m, t, 1);
    OneResult(Go(m, t), t, 0);
  }

  /** In `k` steps thread `t` returns the remaining items in order, and then refuses. */
  ghost predicate DrainsIn(m: Run, t: nat, k: nat) {
    Lone(m, t) && Results(m, t, k) == Items(m.log.filled, m.q.head, m.q.tail) + [WouldBlock]
  }

  /** A step that shows nothing and keeps what is left. */
  lemma SilentDrains(m: Run, t: nat, k: nat)
    requires Lone(m, t) && !m.q.th[t].Returning? && DrainsIn(Go(m, t), t, k)
    requires Keeps(m, Go(m, t), t) && Go(m, t).q.head == m.q.head
    ensures DrainsIn(m, t, k + 1)
  {
    SilentResult(m, t, k);
  }

  /**
   From a claim (or the counting of a miss) on, the remaining items come out in order, then
   a refusal.  Each call ends because `tail - head` shrinks.
   */
  lemma {:induction false} DrainsFrom(m: Run, t: nat) returns (k: nat)
    requires Lone(m, t) && (m.q.th[t].DeqClaim? || m.q.th[t].DeqCount? || m.q.th[t].DeqRecheckDraining?)
    ensures DrainsIn(m, t, k)
    decreases
      if m.q.tail > m.q.head then m.q.tail - m.q.head else 0,
      if m.q.th[t].DeqClaim? then 0 else if m.q.th[t].DeqCount? then 2 else 1
  {
    if !m.q.th[t].DeqClaim? {
      Counted(m, t);
      k := DrainsFrom(Go(m, t), t);
      SilentDrains(m, t, k);
      k := k + 1;
    } else if m.q.head in m.log.filled {
      var m' := HitState(m, t);
      k := DrainsFrom(m', t);
      HitDrains(m, t, k);
      k := k + 6;
    } else if m.q.tail <= m.q.head + 1 {
      k := SkipRefuses(m, t);
    } else {
      var m' := SkipState(m, t);
      k := DrainsFrom(m', t);
      SkipDrains(m, t, k);
      k := k + 4;
    }
  }

  /** An item is taken and returned, and the next call begins. */
  lemma HitState(m: Run, t: nat) returns (m': Run)
    requires Lone(m, t) && m.q.th[t].DeqClaim? && m.q.head in m.log.filled
    ensures m' == Go3(Go3(m, t), t) && Keeps(m, m', t) && m'.q.head == m.q.head + 1 && m'.q.th[t].DeqClaim?
    ensures m.q.head < m.q.tail
  {
    Hit(m, t);
    CallsAgain(Go3(m, t), t);
    m' := Go3(Go3(m, t), t);
  }

  lemma HitResults(m: Run, t: nat, k: nat)
    requires Lone(m, t) && m.q.th[t].DeqClaim? && m.q.head in m.log.filled
    ensures Results(m, t, k + 6) == [Got(m.log.filled[m.q.head])] + Results(Go3(Go3(m, t), t), t, k)
  {
    var m1 := Go3(m, t);
    Hit(m, t);
    CallsAgain(m1, t);
    assert Results(m1, t, k + 3) == [m1.q.th[t].res] + Results(Go3(m1, t), t, k);
    assert Results(m, t, (k + 3) + 3) == Results(m1, t, k + 3);
  }

  lemma HitDrains(m: Run, t: nat, k: nat)
    requires Lone(m, t) && m.q.th[t].DeqClaim? && m.q.head in m.log.filled && DrainsIn(Go3(Go3(m, t), t), t, k)
    ensures DrainsIn(m, t, k + 6)
  {
    var m' := HitState(m, t);
    HitResults(m, t, k);
    ItemsHit(m.log.filled, m.q.head, m.q.tail);
  }

  lemma ItemsHit(filled: map<nat, nat>, lo: nat, hi: nat)
    requires lo in filled && lo < hi
    ensures [Got(filled[lo])] + (Items(filled, lo + 1, hi) + [WouldBlock]) == Items(filled, lo, hi) + [WouldBlock]
  {
  }

  lemma ItemsSkip(filled: map<nat, nat>, lo: nat, hi: nat)
    requires lo !in filled
    ensures Items(filled, lo, hi) == Items(filled, lo + 1, hi)
  {
  }

  /** A position without an item, but not the last one, is repaired and counted. */
  lemma SkipState(m: Run, t: nat) returns (m': Run)
    requires Lone(m, t) && m.q.th[t].DeqClaim? && m.q.head !in m.log.filled && m.q.tail > m.q.head + 1
    ensures m' == Go(Go3(m, t), t) && Keeps(m, m', t) && m'.q.head == m.q.head + 1 && m'.q.th[t].DeqCount?
  {
    Skips(m, t);
    Counts(Go3(m, t), t);
    m' := Go(Go3(m, t), t);
  }

  lemma SkipDrains(m: Run, t: nat, k: nat)
    requires Lone(m, t) && m.q.th[t].DeqClaim? && m.q.head !in m.log.filled && m.q.tail > m.q.head + 1
    requires DrainsIn(Go(Go3(m, t), t), t, k)
    ensures DrainsIn(m, t, k + 4)
  {
    var m1 := Go3(m, t);
    Skips(m, t);
    Counts(m1, t);
    SilentDrains(m1, t, k);
    assert Results(m, t, (k + 1) + 3) == Results(m1, t, k + 1);
    ItemsSkip(m.log.filled, m.q.head, m.q.tail);
  }

  lemma SkipRefuses(m: Run, t: nat) returns (k: nat)
    requires Lone(m, t) && m.q.th[t].DeqClaim? && m.q.head !in m.log.filled && m.q.tail <= m.q.head + 1
    ensures DrainsIn(m, t, k)
  {
    var m1 := Go3(m, t);
    Skips(m, t);
    k := Refuses(m1, t);
    assert Results(m, t, k + 3) == Results(m1, t, k);
    ItemsSkip(m.log.filled, m.q.head, m.q.tail);
    k := k + 3;
  }

  lemma DrainCall(m: Run, t: nat) returns (d: Run)
    requires Inv(m) && t < |m.q.th| && m.q.th[t].Resting?
    ensures d == Drained3(m, t)
    ensures Keeps(m, d, t) && d.q.th[t].Resting? && d.q.head == m.q.head
  {
    var e := Event(t, Drain);
    var m1 := Next(m, e); StepInv(m, e); OthersStay(m.q, e);
    assert m1.q.th[t].StoreDraining?;
    var m2 := Next(m1, e); StepInv(m1, e); OthersStay(m1.q, e);
    assert m2.q.th[t] == Returning(Drained);
    d := Next(m2, e); StepInv(m2, e); OthersStay(m2.q, e);
  }

  /** Thread `t` calls Drain and returns. */
  function Drained3(m: Run, t: nat): Run
    requires WfLog(m)
  {
    Next(Next(Next(m, Event(t, Drain)), Event(t, Drain)), Event(t, Drain))
  }

  lemma DrainsAll(m: Run, t: nat) returns (k: nat)
    requires Lone(m, t) && m.q.th[t].Resting?
    ensures DrainsIn(m, t, k)
  {
    var m1 := Go(m, t); Again(m, t);
    var m2 := Go(m1, t); Again(m1, t);
    k := DrainsFrom(m2, t);
    SilentDrains(m1, t, k);
    SilentDrains(m, t, k + 1);
    k := k + 2;
  }

  /**
   After Drain, from any reachable state, a thread that runs alone gets everything that is
   left, even if the others stopped in the middle of their calls.
   */
  lemma DrainComplete(n: nat, threads: nat, sched: seq<Event>, t: nat)
    requires n > 0 && t < threads && Final(Start(n, threads), sched).q.th[t].Resting?
    ensures var m := Final(Start(n, threads), sched);
      Yields(Drained3(m, t), t, Items(m.log.filled, m.q.head, m.q.tail) + [WouldBlock])
  {
    StartInv(n, threads);
    RunInv(Start(n, threads), sched);
    var d := DrainCall(Final(Start(n, threads), sched), t);
    var k := DrainsAll(d, t);
  }

  // What can still be delivered

  lemma FinalGo(m: Run, t: nat, rest: seq<Event>) returns (s: seq<Event>)
    requires WfLog(m)
    ensures Final(m, s) == Final(Go(m, t), rest)
  {
    s := [Event(t, Deq)] + rest;
    OneFinal(m, Event(t, Deq), rest);
  }

  lemma FinalGo3(m: Run, t: nat, rest: seq<Event>) returns (s: seq<Event>)
    requires WfLog(m)
    ensures Final(m, s) == Final(Go3(m, t), rest)
  {
    s := FinalGo(Go(Go(m, t), t), t, rest);
    s := FinalGo(Go(m, t), t, s);
    s := FinalGo(m, t, s);
  }

  /** A draining thread that runs alone gets to the item at `p`. */
  lemma {:induction false} DeliversItem(m: Run, t: nat, p: nat) returns (s: seq<Event>)
    requires Lone(m, t) && (m.q.th[t].DeqClaim? || m.q.th[t].DeqCount? || m.q.th[t].DeqRecheckDraining?)
    requires p in m.log.filled && p >= m.q.head
    ensures p in Final(m, s).log.got
    decreases p - m.q.head, if m.q.th[t].DeqClaim? then 0 else if m.q.th[t].DeqCount? then 2 else 1
  {
    if !m.q.th[t].DeqClaim? {
      Counted(m, t);
      s := DeliversItem(Go(m, t), t, p);
      s := FinalGo(m, t, s);
    } else if m.q.head !in m.log.filled {
      var m1 := Go3(m, t); Skips(m, t);
      Counts(m1, t);
      s := DeliversItem(Go(m1, t), t, p);
      s := FinalGo(m1, t, s);
      s := FinalGo3(m, t, s);
    } else if m.q.head < p {
      var m1 := Go3(m, t); Hit(m, t);
      CallsAgain(m1, t);
      s := DeliversItem(Go3(m1, t), t, p);
      s := FinalGo3(m1, t, s);
      s := FinalGo3(m, t, s);
    } else {
      Hit(m, t);
      s := FinalGo3(m, t, []);
    }
  }

  lemma RestingDelivers(m: Run, t: nat, p: nat) returns (s: seq<Event>)
    requires Inv(m) && t < |m.q.th| && m.q.th[t].Resting? && p in m.log.filled && p >= m.q.head
    ensures p in Final(m, s).log.got
  {
    var e := Event(t, Drain);
    var d := DrainCall(m, t);
    var m1 := Go(d, t); Again(d, t);
    var m2 := Go(m1, t); Again(m1, t);
    s := DeliversItem(m2, t, p);
    s := FinalGo(m1, t, s);
    s := FinalGo(d, t, s);
    OneFinal(Next(Next(m, e), e), e, s);
    OneFinal(Next(m, e), e, [e] + s);
    OneFinal(m, e, [e] + ([e] + s));
    s := [e] + ([e] + ([e] + s));
  }

  // A thread inside a call comes to rest on its own, or claims the item

  /** How many more positions the running call can claim. */
  function ClaimsLeft(q: Queue, l: Local, p: nat): nat {
    var room := q.head + q.n - q.tail;
    match l
    case EnqLoadTail(_) => if room > 0 then room else 0
    case EnqLoadHead(_, tail) =>
      if tail == q.tail then (if room > 0 then room else 0) else if room > 1 then room - 1 else 0
    case EnqClaim(_) => if room > 1 then room - 1 else 0
    case EnqLoadSlot(_, _) => if room > 0 then room else 0
    case EnqFill(_, _, _) => if room > 0 then room else 0
    case Resting => 0
    case Returning(_) => 0
    case EnqReset(_, _) => 0
    case StoreDraining => 0
    case _ => if p > q.head then p - q.head else 0
  }

  /** How far the call is from its next claim or its end. */
  function StepsLeft(q: Queue, l: Local): nat {
    match l
    case DeqLoadSlot(_) => 14
    case DeqTake(_, _) => 13
    case DeqRepair(_, _, _) => 13
    case DeqLoadTail(_) => 12
    case CatchLoadHead(tail) => if tail < q.head then 11 else 8
    case CatchCas(_, _) => 10
    case CatchLoadTail => 9
    case DeqCount => 7
    case DeqLoadDraining => 7
    case DeqLoadThreshold => 6
    case DeqRecheckDraining => 6
    case DeqClaim => 5
    case DeqMiss => 3
    case EnqLoadHead(_, tail) => if tail == q.tail then 5 else 10
    case EnqClaim(_) => 9
    case EnqLoadSlot(_, _) => 8
    case EnqFill(_, _, _) => 7
    case EnqLoadTail(_) => 6
    case EnqReset(_, _) => 2
    case StoreDraining => 2
    case Returning(_) => 1
    case Resting => 0
  }

  ghost predicate Nearer(m: Run, m': Run, t: nat, p: nat)
    requires t < |m.q.th| && t < |m'.q.th|
  {
    var l, l' := m.q.th[t], m'.q.th[t];
    || ClaimsLeft(m'.q, l', p) < ClaimsLeft(m.q, l, p)
    || (ClaimsLeft(m'.q, l', p) == ClaimsLeft(m.q, l, p) && StepsLeft(m'.q, l') < StepsLeft(m.q, l))
  }

  predicate InEnqueue(l: Local) {
    || l.EnqLoadTail? || l.EnqLoadHead? || l.EnqClaim? || l.EnqLoadSlot? || l.EnqFill? || l.EnqReset?
  }

  predicate InCatchup(l: Local) {
    l.CatchCas? || l.CatchLoadTail? || l.CatchLoadHead? || l.DeqMiss? || l.DeqLoadTail?
  }

  lemma EnqueueNears(m: Run, t: nat, p: nat)
    requires WfLog(m) && t < |m.q.th| && InEnqueue(m.q.th[t])
    ensures Go(m, t).q.head == m.q.head && |Go(m, t).q.th| == |m.q.th| && Nearer(m, Go(m, t), t, p)
  {
  }

  lemma CatchupNears(m: Run, t: nat, p: nat)
    requires Inv(m) && t < |m.q.th| && InCatchup(m.q.th[t]) && p in m.log.filled && p >= m.q.head
    ensures Go(m, t).q.head == m.q.head && |Go(m, t).q.th| == |m.q.th| && Nearer(m, Go(m, t), t, p)
  {
    assert LocalOk(m.q, m.log, t);
    assert m.q.tail > p;
  }

  predicate AtSlot(l: Local) {
    l.DeqLoadSlot? || l.DeqTake? || l.DeqRepair?
  }

  lemma SlotNears(m: Run, t: nat, p: nat)
    requires WfLog(m) && t < |m.q.th| && p >= m.q.head && AtSlot(m.q.th[t])
    ensures Go(m, t).q.head == m.q.head && |Go(m, t).q.th| == |m.q.th| && Nearer(m, Go(m, t), t, p)
  {
  }

  lemma DequeueNears(m: Run, t: nat, p: nat)
    requires WfLog(m) && t < |m.q.th| && p >= m.q.head && !m.q.th[t].Resting? && !m.q.th[t].DeqClaim?
    requires !InEnqueue(m.q.th[t]) && !InCatchup(m.q.th[t]) && !AtSlot(m.q.th[t])
    ensures Go(m, t).q.head == m.q.head && |Go(m, t).q.th| == |m.q.th| && Nearer(m, Go(m, t), t, p)
  {
  }

  lemma ClaimNears(m: Run, t: nat, p: nat)
    requires Inv(m) && Inv(Go(m, t)) && t < |m.q.th| && m.q.th[t].DeqClaim? && p in m.log.filled && p >= m.q.head
    ensures var m' := Go(m, t);
      && p in m'.log.filled && |m'.q.th| == |m.q.th|
      && (if p < m'.q.head then p !in m'.log.got && Awaited(m', p) else Nearer(m, m', t, p))
  {
    Intact(m, p);
  }

  /** Every accepted item at a position not below `head` can be delivered, wherever the threads stand. */
  lemma {:induction false} UnclaimedDeliverable(m: Run, t: nat, p: nat) returns (s: seq<Event>)
    requires Inv(m) && t < |m.q.th| && p in m.log.filled && p >= m.q.head
    ensures p in Final(m, s).log.got
    decreases ClaimsLeft(m.q, m.q.th[t], p), StepsLeft(m.q, m.q.th[t])
  {
    if m.q.th[t].Resting? {
      s := RestingDelivers(m, t, p);
    } else {
      var m' := Go(m, t);
      StepInv(m, Event(t, Deq));
      EnqueueExact(m, Event(t, Deq));
      if m.q.th[t].DeqClaim? {
        ClaimNears(m, t, p);
      } else if InEnqueue(m.q.th[t]) {
        EnqueueNears(m, t, p);
      } else if InCatchup(m.q.th[t]) {
        CatchupNears(m, t, p);
      } else if AtSlot(m.q.th[t]) {
        SlotNears(m, t, p);
      } else {
        DequeueNears(m, t, p);
      }
      if p < m'.q.head {
        DeliverableIff(m', p);
        s :| p in Final(m', s).log.got;
      } else {
        s := UnclaimedDeliverable(m', t, p);
      }
      s := FinalGo(m, t, s);
    }
  }

  /**
   Exactly which accepted items can still be delivered: those no Dequeue has claimed, and
   those whose consumer has yet to act on the intact entry.
   */
  lemma AcceptedDeliverableIff(m: Run, p: nat)
    requires Inv(m) && |m.q.th| > 0 && p in m.log.filled && p !in m.log.got
    ensures (exists sched :: p in Final(m, sched).log.got) <==> p >= m.q.head || Awaited(m, p)
  {
    if p >= m.q.head {
      var sched := UnclaimedDeliverable(m, 0, p);
    } else {
      DeliverableIff(m, p);
    }
  }
}
