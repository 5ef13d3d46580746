/**
 Progress of MPMCIndirect: how many steps a call can make in any run, and what it does on its
 own.
 */
module MPMCIndirectProgress {
  import opened Ring
  import opened TwoLap
  import opened MPMCIndirect
  import opened MPMCIndirectProof
  import opened MPMCIndirectCalls
  import Loss = MPMCIndirectLoss
  import Drain = MPMCIndirectDrain

  // Every run: steps are paid for by the advance of the indices

  /** The own steps since the last return to the top of a loop. */
  function Rank(l: Local): nat {
    match l
    case Resting => 0
    case EnqLoadTail(_) => 1
    case EnqLoadHead(_, _) => 2
    case EnqClaim(_) => 3
    case EnqLoadSlot(_, _) => 4
    case EnqFill(_, _, _) => 5
    case EnqReset(_, _) => 6
    case DeqLoadDraining => 1
    case DeqLoadThreshold => 2
    case DeqClaim => 3
    case DeqLoadSlot(_) => 4
    case DeqTake(_, _) => 5
    case DeqRepair(_, _, _) => 5
    case DeqLoadTail(_) => 6
    case DeqCount => 7
    case DeqRecheckDraining => 8
    case CatchCas(_, _) => 7
    case CatchLoadTail => 1
    case CatchLoadHead(_) => 2
    case DeqMiss => 8
    case StoreDraining => 1
    case Returning(_) => 9
  }

  predicate InCatchup(l: Local) {
    l.CatchCas? || l.CatchLoadTail? || l.CatchLoadHead?
  }

  /** A claim is under way that has not been counted as a trip. */
  function Extra(l: Local): nat {
    if l.EnqLoadSlot? || l.EnqFill? || AtPosition(l) || l.DeqCount? || l.DeqRecheckDraining? then 1 else 0
  }

  /** The index that every extra claim of a call has advanced. */
  function Advanced(b: Book, i: nat): int
    requires i < |b.op| == |b.tail| == |b.head|
  {
    if b.op[i].Enq? then b.m.q.tail - b.tail[i] else b.m.q.head - b.head[i]
  }

  ghost predicate StepsOk(b: Book, i: nat)
    requires WfBook(b) && i < |b.m.q.th|
  {
    var l := b.m.q.th[i];
    !l.Resting? ==>
      && b.steps[i] <= 8 * (b.trips[i] + b.spins[i]) + Rank(l)
      && b.trips[i] + Extra(l) <= Advanced(b, i)
      && b.tail[i] + b.spins[i] <= b.m.q.tail && b.head[i] <= b.m.q.head
      && (b.op[i].Enq? ==> b.spins[i] == 0)
      && (Enqueuing(l) ==> b.op[i].Enq?)
      && (AtPosition(l) || InCatchup(l) || l.DeqClaim? || l.DeqCount? || l.DeqMiss? ==> b.op[i].Deq?)
      && (l.DeqLoadDraining? || l.DeqLoadThreshold? || l.DeqRecheckDraining? ==> b.op[i].Deq?)
      && (l.CatchCas? || l.CatchLoadHead? ==> b.tail[i] + b.spins[i] <= l.tail <= b.m.q.tail)
  }

  ghost predicate StepsInv(b: Book) {
    WfBook(b) && Inv(b.m) && forall i :: 0 <= i < |b.m.q.th| ==> StepsOk(b, i)
  }

  lemma OthersSteps(b: Book, e: Event, i: nat)
    requires StepsInv(b) && e.t < |b.m.q.th| && i < |b.m.q.th| && i != e.t
    ensures StepsOk(NextBook(b, e), i)
  {
    assert StepsOk(b, i);
    Loss.OthersStay(b.m.q, e);
    IndicesIncrease(b.m, e);
  }

  lemma EnqueueSteps(b: Book, e: Event)
    requires StepsInv(b) && e.t < |b.m.q.th| && Enqueuing(b.m.q.th[e.t])
    ensures StepsOk(NextBook(b, e), e.t)
  {
    assert StepsOk(b, e.t);
  }

  lemma ClaimSteps(b: Book, e: Event)
    requires StepsInv(b) && e.t < |b.m.q.th| && (b.m.q.th[e.t].DeqLoadTail? || b.m.q.th[e.t].DeqClaim?)
    ensures StepsOk(NextBook(b, e), e.t)
  {
    assert StepsOk(b, e.t);
  }

  lemma LoadSteps(b: Book, e: Event)
    requires StepsInv(b) && e.t < |b.m.q.th| && b.m.q.th[e.t].DeqLoadSlot?
    ensures StepsOk(NextBook(b, e), e.t)
  {
    assert StepsOk(b, e.t);
  }

  lemma SlotSteps(b: Book, e: Event)
    requires StepsInv(b) && e.t < |b.m.q.th| && (b.m.q.th[e.t].DeqTake? || b.m.q.th[e.t].DeqRepair?)
    ensures StepsOk(NextBook(b, e), e.t)
  {
    assert StepsOk(b, e.t);
  }

  lemma CatchupSteps(b: Book, e: Event)
    requires StepsInv(b) && e.t < |b.m.q.th| && b.m.q.th[e.t].CatchCas?
    ensures StepsOk(NextBook(b, e), e.t)
  {
    assert StepsOk(b, e.t) && LocalOk(b.m.q, b.m.log, e.t);
  }

  lemma ReloadSteps(b: Book, e: Event)
    requires StepsInv(b) && e.t < |b.m.q.th|
    requires b.m.q.th[e.t].CatchLoadTail? || b.m.q.th[e.t].CatchLoadHead? || b.m.q.th[e.t].DeqMiss?
    ensures StepsOk(NextBook(b, e), e.t)
  {
    assert StepsOk(b, e.t);
  }

  lemma RestSteps(b: Book, e: Event)
    requires StepsInv(b) && e.t < |b.m.q.th| && !Enqueuing(b.m.q.th[e.t]) && !AtPosition(b.m.q.th[e.t])
    requires !b.m.q.th[e.t].DeqClaim? && !InCatchup(b.m.q.th[e.t]) && !b.m.q.th[e.t].DeqMiss?
    ensures StepsOk(NextBook(b, e), e.t)
  {
    assert StepsOk(b, e.t);
  }

  lemma StepsStep(b: Book, e: Event)
    requires StepsInv(b)
    ensures StepsInv(NextBook(b, e))
  {
    StepInv(b.m, e);
    if e.t < |b.m.q.th| {
      var l := b.m.q.th[e.t];
      if Enqueuing(l) {
        EnqueueSteps(b, e);
      } else if l.DeqLoadSlot? {
        LoadSteps(b, e);
      } else if l.DeqTake? || l.DeqRepair? {
        SlotSteps(b, e);
      } else if l.DeqLoadTail? || l.DeqClaim? {
        ClaimSteps(b, e);
      } else if l.CatchCas? {
        CatchupSteps(b, e);
      } else if InCatchup(l) || l.DeqMiss? {
        ReloadSteps(b, e);
      } else {
        RestSteps(b, e);
      }
      forall i | 0 <= i < |b.m.q.th|
        ensures StepsOk(NextBook(b, e), i)
      {
        if i != e.t { OthersSteps(b, e, i); }
      }
    }
  }

  lemma {:induction false} StepsRun(b: Book, sched: seq<Event>)
    requires StepsInv(b)
    ensures StepsInv(FinalBook(b, sched))
    decreases sched
  {
    if sched == [] {
    } else {
      StepsStep(b, sched[0]);
      StepsRun(NextBook(b, sched[0]), sched[1..]);
    }
  }

  lemma StepsBounded(b: Book, t: nat)
    requires StepsInv(b) && t < |b.m.q.th| && !b.m.q.th[t].Resting?
    ensures b.steps[t] <= 8 * ((b.m.q.tail - b.tail[t]) + (b.m.q.head - b.head[t])) + 9
  {
    assert StepsOk(b, t);
  }

  /**
   In every run: a call that has not returned has made at most `8 * d + 9` steps of its own,
   where `d` is how far the two indices together have advanced since it began.
   */
  lemma StepBound(n: nat, threads: nat, sched: seq<Event>, t: nat)
    requires n > 0 && t < threads
    ensures var b := FinalBook(Begun(n, threads), sched);
      && b.m == Final(Start(n, threads), sched)
      && (!b.m.q.th[t].Resting? ==>
            b.steps[t] <= 8 * ((b.m.q.tail - b.tail[t]) + (b.m.q.head - b.head[t])) + 9)
  {
    StartInv(n, threads);
    StepsRun(Begun(n, threads), sched);
    var b := FinalBook(Begun(n, threads), sched);
    if !b.m.q.th[t].Resting? {
      StepsBounded(b, t);
    }
  }

  // A call on its own

  function Solo(q: Queue, t: nat, k: nat): (r: Queue)
    requires Wf(q)
    ensures Wf(r) && |r.th| == |q.th|
    decreases k
  {
    if k == 0 then q else Solo(Step(q, Event(t, Deq)), t, k - 1)
  }

  /** After `k` steps on its own the call of thread `t` has its answer. */
  predicate Returns(q: Queue, t: nat, k: nat) {
    Wf(q) && t < |q.th| && Solo(q, t, k).th[t].Returning?
  }

  lemma OneFirst(q: Queue, q': Queue, t: nat, k: nat)
    requires Wf(q) && q' == Step(q, Event(t, Deq)) && Returns(q', t, k)
    ensures Returns(q, t, k + 1)
  {
  }

  function Room(q: Queue): nat {
    if q.head + q.n > q.tail then q.head + q.n - q.tail else 0
  }

  function Ahead(q: Queue): nat {
    if q.tail > q.head then q.tail - q.head else 0
  }

  /** How many more positions the running call can claim on its own, at most. */
  function ClaimsLeft(q: Queue, l: Local): nat
    requires Wf(q)
  {
    match l
    case EnqLoadTail(_) => Room(q)
    case EnqLoadHead(_, tail) => if tail == q.tail then Room(q) else if Room(q) > 1 then Room(q) - 1 else 0
    case EnqClaim(_) => if Room(q) > 1 then Room(q) - 1 else 0
    case EnqLoadSlot(_, _) => Room(q)
    case EnqFill(_, _, _) => Room(q)
    case DeqLoadSlot(my) =>
      if my + 1 == q.head && q.tail <= q.head && At(q, my).cycle <= Cycle(my, q.n) + 1 then 0 else Ahead(q) + 1
    case DeqTake(my, val) => if At(q, my) == Entry(Cycle(my, q.n) + 1, val) then 0 else Ahead(q) + 1
    case DeqRepair(my, _, _) => if q.tail <= my + 1 then 0 else Ahead(q) + 1
    case DeqLoadTail(my) => if q.tail <= my + 1 then 0 else Ahead(q) + 1
    case DeqLoadDraining => Ahead(q) + 1
    case DeqLoadThreshold => Ahead(q) + 1
    case DeqClaim => Ahead(q) + 1
    case DeqCount => Ahead(q) + 1
    case DeqRecheckDraining => Ahead(q) + 1
    case _ => 0
  }

  /** How far the call is from its next claim or its end. */
  function StepsLeft(q: Queue, l: Local): (k: nat)
    ensures k <= 14
  {
    match l
    case DeqLoadSlot(_) => 14
    case DeqTake(_, _) => 13
    case DeqRepair(_, _, _) => 13
    case DeqLoadTail(_) => 12
    case CatchLoadHead(tail) => if tail == q.tail then 5 else 11
    case CatchCas(tail, _) => if tail == q.tail then 4 else 10
    case CatchLoadTail => 9
    case DeqCount => 7
    case DeqLoadDraining => 7
    case DeqLoadThreshold => 6
    case DeqRecheckDraining => 6
    case DeqClaim => 5
    case DeqMiss => 3
    case EnqLoadHead(_, tail) => if tail == q.tail then 5 else 10
    case EnqClaim(_) => 9
    case EnqLoadSlot(_, _) => 8
    case EnqFill(_, _, _) => 7
    case EnqLoadTail(_) => 6
    case EnqReset(_, _) => 2
    case StoreDraining => 2
    case Returning(_) => 0
    case Resting => 0
  }

  function Left(q: Queue, l: Local): nat
    requires Wf(q)
  {
    15 * ClaimsLeft(q, l) + StepsLeft(q, l)
  }

  lemma EnqueueNears(q: Queue, t: nat)
    requires Wf(q) && t < |q.th| && Enqueuing(q.th[t])
    ensures var q' := Step(q, Event(t, Deq)); !q'.th[t].Resting? && Left(q', q'.th[t]) < Left(q, q.th[t])
  {
  }

  lemma ClaimNears(m: Run, t: nat)
    requires Inv(m) && t < |m.q.th| && m.q.th[t].DeqClaim?
    ensures var q' := Step(m.q, Event(t, Deq)); !q'.th[t].Resting? && Left(q', q'.th[t]) < Left(m.q, m.q.th[t])
  {
    Drain.ClaimedSlot(m, m.q.head);
  }

  lemma PositionNears(q: Queue, t: nat)
    requires Wf(q) && t < |q.th| && AtPosition(q.th[t])
    ensures var q' := Step(q, Event(t, Deq)); !q'.th[t].Resting? && Left(q', q'.th[t]) < Left(q, q.th[t])
  {
  }

  lemma RestNears(q: Queue, t: nat)
    requires Wf(q) && t < |q.th| && !Enqueuing(q.th[t]) && !AtPosition(q.th[t]) && !q.th[t].DeqClaim?
    requires !q.th[t].Resting? && !q.th[t].Returning?
    ensures var q' := Step(q, Event(t, Deq)); !q'.th[t].Resting? && Left(q', q'.th[t]) < Left(q, q.th[t])
  {
  }

  lemma {:induction false} LeftReturns(m: Run, t: nat) returns (k: nat)
    requires Inv(m) && t < |m.q.th| && !m.q.th[t].Resting?
    ensures k <= Left(m.q, m.q.th[t]) && Returns(m.q, t, k)
    decreases Left(m.q, m.q.th[t])
  {
    if m.q.th[t].Returning? {
      k := 0;
    } else {
      StepInv(m, Event(t, Deq));
      if Enqueuing(m.q.th[t]) {
        EnqueueNears(m.q, t);
      } else if AtPosition(m.q.th[t]) {
        PositionNears(m.q, t);
      } else if m.q.th[t].DeqClaim? {
        ClaimNears(m, t);
      } else {
        RestNears(m.q, t);
      }
      k := LeftReturns(Next(m, Event(t, Deq)), t);
      OneFirst(m.q, Next(m, Event(t, Deq)).q, t, k);
      k := k + 1;
    }
  }

  /**
   From every reachable state, at every point of a call: on its own it returns, within a number
   of steps given by the positions it can still claim.
   */
  lemma SoloReturns(n: nat, threads: nat, sched: seq<Event>, t: nat) returns (k: nat)
    requires n > 0 && t < threads && !Final(Start(n, threads), sched).q.th[t].Resting?
    ensures var q := Final(Start(n, threads), sched).q;
      k <= 15 * (Room(q) + Ahead(q) + 2) && Returns(q, t, k)
  {
    StartInv(n, threads);
    RunInv(Start(n, threads), sched);
    k := LeftReturns(Final(Start(n, threads), sched), t);
  }

  // What an Enqueue on its own answers

  predicate FreeAt(q: Queue, p: nat)
    requires Wf(q)
  {
    At(q, p).cycle == Cycle(p, q.n)
  }

  /** The slot of `p` was freed for a later lap, because a consumer has passed `p`. */
  predicate PassedAt(q: Queue, p: nat)
    requires Wf(q)
  {
    At(q, p).cycle > Cycle(p, q.n)
  }

  /** There is a free position below `head + n` with only passed ones between `tail` and it. */
  ghost predicate HasRoom(q: Queue)
    requires Wf(q)
  {
    exists p :: q.tail <= p < q.head + q.n && FreeAt(q, p) && forall r :: q.tail <= r < p ==> PassedAt(q, r)
  }

  predicate Gets(q: Queue, t: nat, k: nat, res: Res) {
    Wf(q) && t < |q.th| && Solo(q, t, k).th[t] == Returning(res)
  }

  lemma FirstGets(q: Queue, q': Queue, t: nat, k: nat, res: Res)
    requires Wf(q) && q' == Step(q, Event(t, Deq)) && Gets(q', t, k, res)
    ensures Gets(q, t, k + 1, res)
  {
  }

  lemma SetTwice(q: Queue, t: nat, a: Local, b: Local)
    requires t < |q.th|
    ensures Goto(Goto(q, t, a), t, b) == Goto(q, t, b)
  {
    assert q.th[t := a][t := b] == q.th[t := b];
  }

  lemma StepsTo(q: Queue, t: nat, l: Local, q': Queue, l': Local, k: nat, res: Res)
    requires Wf(q) && Wf(q') && t < |q.th| == |q'.th| && Step(Goto(q, t, l), Event(t, Deq)) == Goto(q', t, l')
    requires Gets(Goto(q', t, l'), t, k, res)
    ensures Gets(Goto(q, t, l), t, k + 1, res)
  {
    FirstGets(Goto(q, t, l), Goto(q', t, l'), t, k, res);
  }

  /** From the claim of the next position on. */
  lemma ClaimGets(q: Queue, t: nat, v: nat, k: nat, res: Res) returns (j: nat)
    requires Wf(q) && t < |q.th| && q.tail < q.head + q.n
    requires Gets(Goto(q.(tail := q.tail + 1), t, EnqLoadSlot(v, q.tail)), t, k, res)
    ensures j == k + 3 && Gets(Goto(q, t, EnqLoadTail(v)), t, j, res)
  {
    SetTwice(q, t, EnqClaim(v), EnqLoadSlot(v, q.tail));
    StepsTo(q, t, EnqClaim(v), q.(tail := q.tail + 1), EnqLoadSlot(v, q.tail), k, res);
    SetTwice(q, t, EnqLoadHead(v, q.tail), EnqClaim(v));
    StepsTo(q, t, EnqLoadHead(v, q.tail), q, EnqClaim(v), k + 1, res);
    SetTwice(q, t, EnqLoadTail(v), EnqLoadHead(v, q.tail));
    StepsTo(q, t, EnqLoadTail(v), q, EnqLoadHead(v, q.tail), k + 2, res);
    j := k + 3;
  }

  lemma FullGets(q: Queue, t: nat, v: nat)
    requires Wf(q) && t < |q.th| && q.tail >= q.head + q.n
    ensures Gets(Goto(q, t, EnqLoadTail(v)), t, 2, WouldBlock)
  {
    SetTwice(q, t, EnqLoadHead(v, q.tail), Returning(WouldBlock));
    StepsTo(q, t, EnqLoadHead(v, q.tail), q, Returning(WouldBlock), 0, WouldBlock);
    SetTwice(q, t, EnqLoadTail(v), EnqLoadHead(v, q.tail));
    StepsTo(q, t, EnqLoadTail(v), q, EnqLoadHead(v, q.tail), 1, WouldBlock);
  }

  /** The slot of the claimed position decides, unless it was passed. */
  lemma SlotGets(q: Queue, t: nat, v: nat, my: nat) returns (k: nat)
    requires Wf(q) && t < |q.th| && !PassedAt(q, my)
    ensures k <= 3 && Gets(Goto(q, t, EnqLoadSlot(v, my)), t, k, if FreeAt(q, my) then Ok else WouldBlock)
  {
    if FreeAt(q, my) {
      var val, q2 := At(q, my).val, Put(q, my, Entry(Cycle(my, q.n) + 1, v));
      var q3 := q2.(threshold := 3 * q.n - 1);
      SetTwice(q2, t, EnqReset(v, my), Returning(Ok));
      StepsTo(q2, t, EnqReset(v, my), q3, Returning(Ok), 0, Ok);
      SetTwice(q, t, EnqFill(v, my, val), EnqReset(v, my));
      StepsTo(q, t, EnqFill(v, my, val), q2, EnqReset(v, my), 1, Ok);
      SetTwice(q, t, EnqLoadSlot(v, my), EnqFill(v, my, val));
      StepsTo(q, t, EnqLoadSlot(v, my), q, EnqFill(v, my, val), 2, Ok);
      k := 3;
    } else {
      SetTwice(q, t, EnqLoadSlot(v, my), Returning(WouldBlock));
      StepsTo(q, t, EnqLoadSlot(v, my), q, Returning(WouldBlock), 0, WouldBlock);
      k := 1;
    }
  }

  /** A passed position leaves the question as it was. */
  lemma PassedRoom(q: Queue)
    requires Wf(q) && PassedAt(q, q.tail) && q.tail < q.head + q.n
    ensures HasRoom(q) <==> HasRoom(q.(tail := q.tail + 1))
  {
    var q' := q.(tail := q.tail + 1);
    if HasRoom(q) {
      var p :| q.tail <= p < q.head + q.n && FreeAt(q, p) && forall r :: q.tail <= r < p ==> PassedAt(q, r);
      assert FreeAt(q', p);
      forall r | q'.tail <= r < p
        ensures PassedAt(q', r)
      {
        assert PassedAt(q, r);
      }
    }
    if HasRoom(q') {
      var p :| q'.tail <= p < q'.head + q'.n && FreeAt(q', p) && forall r :: q'.tail <= r < p ==> PassedAt(q', r);
      assert FreeAt(q, p);
      forall r | q.tail <= r < p
        ensures PassedAt(q, r)
      {
        if r > q.tail { assert PassedAt(q', r); }
      }
    }
  }

  lemma TailRoom(q: Queue)
    requires Wf(q) && (q.tail >= q.head + q.n || !PassedAt(q, q.tail))
    ensures HasRoom(q) <==> q.tail < q.head + q.n && FreeAt(q, q.tail)
  {
    if q.tail < q.head + q.n && FreeAt(q, q.tail) {
      assert HasRoom(q);
    } else {
      forall p | q.tail <= p < q.head + q.n && FreeAt(q, p)
        ensures exists r :: q.tail <= r < p && !PassedAt(q, r)
      {
        assert q.tail <= q.tail < p && !PassedAt(q, q.tail);
      }
    }
  }

  lemma {:induction false} LoopGets(q: Queue, t: nat, v: nat) returns (k: nat)
    requires Wf(q) && t < |q.th|
    ensures k <= 4 * Room(q) + 6 && Gets(Goto(q, t, EnqLoadTail(v)), t, k, if HasRoom(q) then Ok else WouldBlock)
    decreases Room(q)
  {
    var q' := q.(tail := q.tail + 1);
    if q.tail >= q.head + q.n {
      TailRoom(q);
      FullGets(q, t, v);
      k := 2;
    } else if PassedAt(q, q.tail) {
      PassedRoom(q);
      k := LoopGets(q', t, v);
      SetTwice(q', t, EnqLoadSlot(v, q.tail), EnqLoadTail(v));
      StepsTo(q', t, EnqLoadSlot(v, q.tail), q', EnqLoadTail(v), k, if HasRoom(q) then Ok else WouldBlock);
      k := ClaimGets(q, t, v, k + 1, if HasRoom(q) then Ok else WouldBlock);
    } else {
      TailRoom(q);
      k := SlotGets(q', t, v, q.tail);
      k := ClaimGets(q, t, v, k, if HasRoom(q) then Ok else WouldBlock);
    }
  }

  /**
   From every state, whatever the other threads are doing: an Enqueue called by a thread at rest
   and running alone is accepted iff there is a free position below `head + n` with only passed
   ones between `tail` and it.
   */
  lemma LoneEnqueue(q: Queue, t: nat, v: nat) returns (k: nat)
    requires Wf(q) && t < |q.th| && q.th[t].Resting?
    ensures k <= 4 * Room(q) + 6 && Gets(Step(q, Event(t, Enq(v))), t, k, if HasRoom(q) then Ok else WouldBlock)
  {
    k := LoopGets(q, t, v);
  }
}
