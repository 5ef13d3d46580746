/**
 Progress of MPMCCompactIndirect: how many steps a call can make, what a call does on its own,
 and what it then answers.
 */
module MPMCCompactProgress {
  import opened Ring
  import opened CompactRing
  import opened MPMCCompact
  import opened MPMCCompactProof
  import Fifo = BoundedFifo

  // Every run: steps are paid for by the advance of the index

  /** The own steps since the last return to the top of the loop. */
  function Rank(l: Local): nat {
    match l
    case Resting => 0
    case EnqLoadTail(_) => 1
    case EnqLoadHead(_, _) => 2
    case EnqRecheck(_, _, _) => 3
    case EnqFill(_, _) => 4
    case EnqAdvance(_, _) => 5
    case EnqHelp(_, _) => 5
    case DeqLoadHead => 1
    case DeqLoadTail(_) => 2
    case DeqLoadSlot(_, _) => 3
    case DeqRecheck(_, _, _) => 4
    case DeqTake(_, _) => 5
    case DeqAdvance(_, _) => 6
    case DeqHelp(_) => 6
    case Returning(_) => 7
  }

  /** A run with the operation and the own steps of the running call of each thread. */
  datatype Count = Count(m: Run, op: seq<Op>, steps: seq<nat>)

  ghost predicate WfCount(c: Count) {
    && Wf(c.m.q) && |c.op| == |c.m.q.th| && |c.steps| == |c.m.q.th|
    && |c.m.log.base| == |c.m.q.th| && |c.m.log.trips| == |c.m.q.th|
  }

  function Begun(n: nat, threads: nat): Count {
    Count(Start(n, threads), seq(threads, _ => Fifo.Deq), seq(threads, _ => 0))
  }

  ghost function NextCount(c: Count, e: Event): (r: Count)
    requires WfCount(c)
    ensures WfCount(r) && r.m == Next(c.m, e)
  {
    var m' := Next(c.m, e);
    if e.t >= |c.m.q.th| then Count(m', c.op, c.steps)
    else if c.m.q.th[e.t].Resting? then Count(m', c.op[e.t := e.op], c.steps[e.t := 1])
    else Count(m', c.op, c.steps[e.t := if m'.q.th[e.t].Resting? then 0 else c.steps[e.t] + 1])
  }

  ghost function FinalCount(c: Count, sched: seq<Event>): (r: Count)
    requires WfCount(c)
    ensures WfCount(r) && r.m == Final(c.m, sched)
    decreases sched
  {
    if sched == [] then c else FinalCount(NextCount(c, sched[0]), sched[1..])
  }

  /** The index an operation advances. */
  function Index(q: Queue, op: Op): nat {
    match op
    case Enq(_) => q.tail
    case Deq => q.head
  }

  ghost predicate StepsOk(c: Count, i: nat)
    requires WfCount(c) && i < |c.m.q.th|
  {
    var l := c.m.q.th[i];
    !l.Resting? ==>
      && c.steps[i] <= 6 * c.m.log.trips[i] + Rank(l)
      && c.m.log.base[i] + c.m.log.trips[i] <= Index(c.m.q, c.op[i])
      && (Enqueuing(l) || l.EnqAdvance? ==> c.op[i].Enq?)
      && (Dequeuing(l) || l.DeqAdvance? ==> c.op[i].Deq?)
  }

  ghost predicate CountInv(c: Count) {
    WfCount(c) && Inv(c.m) && forall i :: 0 <= i < |c.m.q.th| ==> StepsOk(c, i)
  }

  lemma OthersStay(q: Queue, e: Event)
    requires Wf(q) && e.t < |q.th|
    ensures Step(q, e).th == q.th[e.t := Step(q, e).th[e.t]]
    ensures q.tail <= Step(q, e).tail && q.head <= Step(q, e).head && Step(q, e).n == q.n
  {
  }

  lemma OthersTrips(m: Run, e: Event, i: nat)
    requires Inv(m) && e.t < |m.q.th| && i < |m.q.th| && i != e.t
    ensures Next(m, e).log.base[i] == m.log.base[i] && Next(m, e).log.trips[i] == m.log.trips[i]
  {
  }

  lemma OtherSteps(c: Count, e: Event, i: nat)
    requires CountInv(c) && i < |c.m.q.th| && e.t != i
    ensures StepsOk(NextCount(c, e), i)
  {
    assert StepsOk(c, i);
    if e.t < |c.m.q.th| {
      OthersStay(c.m.q, e);
      OthersTrips(c.m, e, i);
    }
  }

  /** A step of the loop moves on by one, or back to the top after its index has moved. */
  ghost predicate MovesOn(m: Run, m': Run, t: nat)
    requires t < |m.q.th| == |m'.q.th| == |m.log.trips| == |m'.log.trips| == |m.log.base| == |m'.log.base|
  {
    var l, l', k, k' := m.q.th[t], m'.q.th[t], m.log.trips[t], m'.log.trips[t];
    && m'.log.base[t] == m.log.base[t]
    && (l'.Resting? || (k' == k && Rank(l') > Rank(l)) || (k' == k + 1 && Rank(l') == 1 && Rank(l) <= 6))
    && (Enqueuing(l') || l'.EnqAdvance? ==> Enqueuing(l))
    && (Dequeuing(l') || l'.DeqAdvance? ==> Dequeuing(l))
    && (k' == k + 1 ==> Enqueuing(l') || Dequeuing(l'))
  }

  lemma EnqueueStep(m: Run, e: Event)
    requires Inv(m) && e.t < |m.q.th| && Enqueuing(m.q.th[e.t])
    ensures |Next(m, e).log.base| == |Next(m, e).log.trips| == |m.q.th| && MovesOn(m, Next(m, e), e.t)
  {
  }

  lemma DequeueStep(m: Run, e: Event)
    requires Inv(m) && e.t < |m.q.th| && Dequeuing(m.q.th[e.t])
    ensures |Next(m, e).log.base| == |Next(m, e).log.trips| == |m.q.th| && MovesOn(m, Next(m, e), e.t)
  {
  }

  lemma LastStep(m: Run, e: Event)
    requires Inv(m) && e.t < |m.q.th| && !Enqueuing(m.q.th[e.t]) && !Dequeuing(m.q.th[e.t]) && !m.q.th[e.t].Resting?
    ensures |Next(m, e).log.base| == |Next(m, e).log.trips| == |m.q.th| && MovesOn(m, Next(m, e), e.t)
  {
  }

  lemma OwnMoves(m: Run, e: Event)
    requires Inv(m) && e.t < |m.q.th| && !m.q.th[e.t].Resting?
    ensures |Next(m, e).log.base| == |Next(m, e).log.trips| == |m.q.th| && MovesOn(m, Next(m, e), e.t)
  {
    if Enqueuing(m.q.th[e.t]) {
      EnqueueStep(m, e);
    } else if Dequeuing(m.q.th[e.t]) {
      DequeueStep(m, e);
    } else {
      LastStep(m, e);
    }
  }

  lemma StepsKept(c: Count, c': Count, t: nat)
    requires WfCount(c) && WfCount(c') && t < |c.m.q.th| == |c'.m.q.th| && !c.m.q.th[t].Resting?
    requires StepsOk(c, t) && MovesOn(c.m, c'.m, t) && Inv(c'.m)
    requires c'.steps[t] == (if c'.m.q.th[t].Resting? then 0 else c.steps[t] + 1) && c'.op[t] == c.op[t]
    requires c.m.q.tail <= c'.m.q.tail && c.m.q.head <= c'.m.q.head
    ensures StepsOk(c', t)
  {
    assert ThreadOk(c'.m.q, c'.m.log, t);
  }

  lemma OwnSteps(c: Count, e: Event)
    requires CountInv(c) && e.t < |c.m.q.th| && Inv(Next(c.m, e))
    ensures StepsOk(NextCount(c, e), e.t)
  {
    OthersStay(c.m.q, e);
    if c.m.q.th[e.t].Resting? {
      FirstSteps(c, e);
    } else {
      assert StepsOk(c, e.t);
      OwnMoves(c.m, e);
      StepsKept(c, NextCount(c, e), e.t);
    }
  }

  lemma FirstSteps(c: Count, e: Event)
    requires CountInv(c) && e.t < |c.m.q.th| && c.m.q.th[e.t].Resting?
    ensures StepsOk(NextCount(c, e), e.t)
  {
  }

  lemma {:induction false} CountRun(c: Count, sched: seq<Event>)
    requires CountInv(c) && FreshRun(c.m.q, sched)
    ensures CountInv(FinalCount(c, sched))
    decreases sched
  {
    if sched == [] {
    } else {
      var e := sched[0];
      StepInv(c.m, e);
      forall i | 0 <= i < |c.m.q.th|
        ensures StepsOk(NextCount(c, e), i)
      {
        if e.t == i { OwnSteps(c, e); } else { OtherSteps(c, e, i); }
      }
      CountRun(NextCount(c, e), sched[1..]);
    }
  }

  lemma StepsBounded(c: Count, t: nat)
    requires CountInv(c) && t < |c.m.q.th| && !c.m.q.th[t].Resting?
    ensures c.steps[t] <= 6 * (Index(c.m.q, c.op[t]) - c.m.log.base[t]) + 7
  {
    assert StepsOk(c, t);
  }

  lemma BegunInv(n: nat, threads: nat)
    requires n > 0
    ensures CountInv(Begun(n, threads))
  {
    StartInv(n, threads);
  }

  lemma {:induction false} FinalThreads(c: Count, sched: seq<Event>)
    requires WfCount(c)
    ensures |FinalCount(c, sched).m.q.th| == |c.m.q.th|
    decreases sched
  {
    if sched == [] {
    } else {
      FinalThreads(NextCount(c, sched[0]), sched[1..]);
    }
  }

  /**
   In every fresh run: a call that has not returned has made at most `6 * d + 7` steps of its
   own, where `d` is how far its index has advanced since it began.
   */
  lemma StepBound(n: nat, threads: nat, sched: seq<Event>, t: nat)
    requires n > 0 && t < threads && FreshRun(New(n, threads), sched)
    ensures var c := FinalCount(Begun(n, threads), sched);
      && c.m == Final(Start(n, threads), sched)
      && (!c.m.q.th[t].Resting? ==> c.steps[t] <= 6 * (Index(c.m.q, c.op[t]) - c.m.log.base[t]) + 7)
  {
    BegunInv(n, threads);
    CountRun(Begun(n, threads), sched);
    FinalThreads(Begun(n, threads), sched);
    var c := FinalCount(Begun(n, threads), sched);
    if !c.m.q.th[t].Resting? {
      StepsBounded(c, t);
    }
  }

  // A call on its own

  function Solo(q: Queue, t: nat, k: nat): (r: Queue)
    requires Wf(q)
    ensures Wf(r) && |r.th| == |q.th|
    decreases k
  {
    if k == 0 then q else Solo(Step(q, Event(t, Fifo.Deq)), t, k - 1)
  }

  /** After `k` steps on its own the call of thread `t` has its answer. */
  predicate Returns(q: Queue, t: nat, k: nat) {
    Wf(q) && t < |q.th| && Solo(q, t, k).th[t].Returning?
  }

  predicate Gets(q: Queue, t: nat, k: nat, res: Res) {
    Wf(q) && t < |q.th| && Solo(q, t, k).th[t] == Returning(res)
  }

  lemma OneFirst(q: Queue, q': Queue, t: nat, k: nat, res: Res)
    requires Wf(q) && q' == Step(q, Event(t, Fifo.Deq))
    ensures Returns(q', t, k) ==> Returns(q, t, k + 1)
    ensures Gets(q', t, k, res) ==> Gets(q, t, k + 1, res)
  {
  }

  /** How many more steps the call of thread `t` needs on its own, at most. */
  ghost function Left(m: Run, t: nat): (k: nat)
    requires Inv(m) && t < |m.q.th|
    ensures k <= 15
  {
    var q := m.q;
    var enq := if q.tail == |m.log.vals| then 5 else 10;
    var deq := if q.head == |m.log.cons| then 6 else 12;
    match q.th[t]
    case EnqLoadTail(_) => enq
    case EnqLoadHead(_, tail) => if tail == q.tail then enq - 1 else enq + 2
    case EnqRecheck(_, tail, _) => if tail == q.tail then enq - 2 else enq + 1
    case EnqFill(_, tail) => if tail == |m.log.vals| then 2 else if tail == q.tail then 7 else enq + 2
    case EnqHelp(_, tail) => if tail == q.tail then 6 else enq + 1
    case EnqAdvance(_, _) => 1
    case DeqLoadHead => deq
    case DeqLoadTail(head) => if head == q.head then deq - 1 else deq + 3
    case DeqLoadSlot(head, _) => if head == q.head then deq - 2 else deq + 2
    case DeqRecheck(head, _, _) => if head == q.head then deq - 3 else deq + 1
    case DeqTake(head, _) => if head == q.head then (if q.head == |m.log.cons| then 2 else 8) else deq + 2
    case DeqHelp(head) => if head == q.head then 7 else deq + 1
    case DeqAdvance(_, _) => 1
    case _ => 0
  }

  function Go(m: Run, t: nat): Run
    requires Wf(m.q)
  {
    Next(m, Event(t, Fifo.Deq))
  }

  lemma EnqueueNears(m: Run, t: nat)
    requires Inv(m) && t < |m.q.th| && Enqueuing(m.q.th[t]) && Inv(Go(m, t))
    ensures Left(Go(m, t), t) < Left(m, t)
  {
    assert ThreadOk(m.q, m.log, t);
    if m.q.th[t].EnqFill? {
      FillAt(m.q.buf, m.q.n, |m.log.cons|, m.log.vals, m.q.th[t].tail);
      FillNears(m, t);
    } else if m.q.th[t].EnqHelp? {
      TailHelpNears(m, t);
    } else {
      TailTestNears(m, t);
    }
  }

  lemma FillNears(m: Run, t: nat)
    requires Inv(m) && t < |m.q.th| && m.q.th[t].EnqFill? && Inv(Go(m, t)) && m.q.th[t].tail <= m.q.tail
    requires m.q.buf[Slot(m.q.th[t].tail, m.q.n)] == Empty(Round(m.q.th[t].tail, m.q.n)) <==>
      m.q.th[t].tail == |m.log.vals|
    ensures Left(Go(m, t), t) < Left(m, t)
  {
  }

  lemma TailHelpNears(m: Run, t: nat)
    requires Inv(m) && t < |m.q.th| && m.q.th[t].EnqHelp? && Inv(Go(m, t))
    ensures Left(Go(m, t), t) < Left(m, t)
  {
    assert ThreadOk(m.q, m.log, t);
  }

  lemma TailTestNears(m: Run, t: nat)
    requires Inv(m) && t < |m.q.th| && Enqueuing(m.q.th[t]) && !m.q.th[t].EnqFill? && !m.q.th[t].EnqHelp?
    requires Inv(Go(m, t))
    ensures Left(Go(m, t), t) < Left(m, t)
  {
  }

  lemma DequeueNears(m: Run, t: nat)
    requires Inv(m) && t < |m.q.th| && Dequeuing(m.q.th[t]) && Inv(Go(m, t))
    ensures Left(Go(m, t), t) < Left(m, t)
  {
    if m.q.th[t].DeqTake? {
      TakeNears(m, t);
    } else if m.q.th[t].DeqHelp? || m.q.th[t].DeqRecheck? {
      HeadHelpNears(m, t);
    } else {
      HeadLoadNears(m, t);
    }
  }

  lemma TakeNears(m: Run, t: nat)
    requires Inv(m) && t < |m.q.th| && m.q.th[t].DeqTake? && Inv(Go(m, t))
    ensures Left(Go(m, t), t) < Left(m, t)
  {
    TakeAt(m, t);
  }

  lemma HeadHelpNears(m: Run, t: nat)
    requires Inv(m) && t < |m.q.th| && (m.q.th[t].DeqHelp? || m.q.th[t].DeqRecheck?) && Inv(Go(m, t))
    ensures Left(Go(m, t), t) < Left(m, t)
  {
    assert ThreadOk(m.q, m.log, t);
  }

  lemma HeadLoadNears(m: Run, t: nat)
    requires Inv(m) && t < |m.q.th| && (m.q.th[t].DeqLoadHead? || m.q.th[t].DeqLoadTail? || m.q.th[t].DeqLoadSlot?)
    requires Inv(Go(m, t))
    ensures Left(Go(m, t), t) < Left(m, t)
  {
  }

  // What it answers

  /** What thread `t` has loaded is still so. */
  ghost predicate Current(m: Run, t: nat)
    requires Inv(m) && t < |m.q.th|
  {
    var q := m.q;
    match q.th[t]
    case EnqLoadHead(_, tail) => tail == q.tail
    case EnqRecheck(_, tail, head) => tail == q.tail && head == q.head
    case EnqFill(_, tail) => tail == q.tail
    case DeqLoadTail(head) => head == q.head
    case DeqLoadSlot(head, tail) => head == q.head && tail == q.tail
    case DeqRecheck(head, tail, w) => head == q.head && tail == q.tail && w == q.buf[Slot(head, q.n)]
    case DeqTake(head, v) => head == q.head == |m.log.cons|
    case _ => true
  }

  /**
   Full means that all `n` positions from `head` on are filled, whether or not `tail` has
   passed the last one; empty means that all positions below `tail` are taken.
   */
  ghost function Answer(m: Run, t: nat): Res
    requires Inv(m) && t < |m.q.th|
  {
    var l, log := m.q.th[t], m.log;
    if l.Returning? then l.res
    else if l.EnqAdvance? then Fifo.Ok
    else if l.DeqAdvance? then Fifo.Got(l.v)
    else if Enqueuing(l) then (if |log.vals| == m.q.head + m.q.n then Fifo.WouldBlock else Fifo.Ok)
    else if |log.cons| == m.q.tail then Fifo.WouldBlock
    else Fifo.Got(log.vals[|log.cons|])
  }

  lemma EnqueueAnswer(m: Run, t: nat)
    requires Inv(m) && t < |m.q.th| && Enqueuing(m.q.th[t]) && Inv(Go(m, t)) && Current(m, t)
    ensures Current(Go(m, t), t) && Answer(Go(m, t), t) == Answer(m, t)
  {
    assert ThreadOk(m.q, m.log, t);
    if m.q.th[t].EnqFill? {
      FillAt(m.q.buf, m.q.n, |m.log.cons|, m.log.vals, m.q.th[t].tail);
    }
  }

  /** The slot of `head` holds its item, or the mark of the next round once that is taken. */
  lemma HeadSlot(m: Run)
    requires Inv(m) && m.q.head < m.q.tail
    ensures m.q.buf[Slot(m.q.head, m.q.n)] ==
      if m.q.head == |m.log.cons| then Value(m.log.vals[m.q.head]) else Empty(Round(m.q.head, m.q.n) + 1)
  {
    var p := if m.q.head == |m.log.cons| then m.q.head else m.q.head + m.q.n;
    assert Slot(p, m.q.n) == Slot(m.q.head, m.q.n);
    assert m.q.buf[Slot(p, m.q.n)] == if p < |m.log.vals| then Value(m.log.vals[p]) else Empty(Round(p, m.q.n));
  }

  lemma RecheckAnswer(m: Run, t: nat)
    requires Inv(m) && t < |m.q.th| && m.q.th[t].DeqRecheck? && Inv(Go(m, t)) && Current(m, t)
    ensures Current(Go(m, t), t) && Answer(Go(m, t), t) == Answer(m, t)
  {
    if m.q.head < m.q.tail {
      HeadSlot(m);
    }
  }

  lemma TakeAnswer(m: Run, t: nat)
    requires Inv(m) && t < |m.q.th| && m.q.th[t].DeqTake? && Inv(Go(m, t)) && Current(m, t)
    ensures Current(Go(m, t), t) && Answer(Go(m, t), t) == Answer(m, t)
  {
    assert ThreadOk(m.q, m.log, t);
    TakeAt(m, t);
  }

  lemma DequeueAnswer(m: Run, t: nat)
    requires Inv(m) && t < |m.q.th| && Dequeuing(m.q.th[t]) && Inv(Go(m, t)) && Current(m, t)
    ensures Current(Go(m, t), t) && Answer(Go(m, t), t) == Answer(m, t)
  {
    if m.q.th[t].DeqTake? {
      TakeAnswer(m, t);
    } else if m.q.th[t].DeqRecheck? {
      RecheckAnswer(m, t);
    }
  }

  lemma Nears(m: Run, t: nat)
    requires Inv(m) && t < |m.q.th| && (Enqueuing(m.q.th[t]) || Dequeuing(m.q.th[t])) && Inv(Go(m, t))
    ensures Left(Go(m, t), t) < Left(m, t)
    ensures Current(m, t) ==> Current(Go(m, t), t) && Answer(Go(m, t), t) == Answer(m, t)
  {
    if Enqueuing(m.q.th[t]) {
      EnqueueNears(m, t);
      if Current(m, t) { EnqueueAnswer(m, t); }
    } else {
      DequeueNears(m, t);
      if Current(m, t) { DequeueAnswer(m, t); }
    }
  }

  /** The last two steps of a successful Enqueue need no invariant. */
  lemma FillReturns(q: Queue, t: nat)
    requires Wf(q) && Fills(q, t)
    ensures Solo(q, t, 2).th[t] == Returning(Fifo.Ok)
  {
    var q1 := Step(q, Event(t, Fifo.Deq));
    assert q1.th[t].EnqAdvance?;
    assert Solo(q, t, 2) == Solo(q1, t, 1) == Solo(Step(q1, Event(t, Fifo.Deq)), t, 0);
  }

  /** Thread `t` needs at most `bound` steps, and if what it loaded is current, `res` will be its answer. */
  ghost predicate Heads(m: Run, t: nat, bound: nat, current: bool, res: Res) {
    && Inv(m) && t < |m.q.th| && !m.q.th[t].Resting? && Left(m, t) <= bound
    && (current ==> Current(m, t) && Answer(m, t) == res)
  }

  lemma HeadsOn(m: Run, t: nat, bound: nat, current: bool, res: Res)
    requires Heads(m, t, bound, current, res) && (Enqueuing(m.q.th[t]) || Dequeuing(m.q.th[t])) && !Fills(m.q, t)
    ensures bound > 0 && Heads(Go(m, t), t, bound - 1, current, res) && Go(m, t).q == Step(m.q, Event(t, Fifo.Deq))
  {
    StepInv(m, Event(t, Fifo.Deq));
    Nears(m, t);
    StaysIn(m.q, t);
    HeadsKept(m, Go(m, t), t, bound, current, res);
  }

  lemma StaysIn(q: Queue, t: nat)
    requires Wf(q) && t < |q.th| && (Enqueuing(q.th[t]) || Dequeuing(q.th[t]))
    ensures !Step(q, Event(t, Fifo.Deq)).th[t].Resting?
  {
  }

  lemma HeadsKept(m: Run, m': Run, t: nat, bound: nat, current: bool, res: Res)
    requires Heads(m, t, bound, current, res) && Inv(m') && |m'.q.th| == |m.q.th| && !m'.q.th[t].Resting?
    requires Left(m', t) < Left(m, t)
    requires Current(m, t) ==> Current(m', t) && Answer(m', t) == Answer(m, t)
    ensures bound > 0 && Heads(m', t, bound - 1, current, res)
  {
  }

  lemma HeadsEnd(m: Run, t: nat, bound: nat, current: bool, res: Res) returns (k: nat)
    requires Heads(m, t, bound, current, res) && !Dequeuing(m.q.th[t]) && (Enqueuing(m.q.th[t]) ==> Fills(m.q, t))
    ensures k <= bound && Returns(m.q, t, k) && (current ==> Gets(m.q, t, k, res))
  {
    if m.q.th[t].Returning? {
      k := 0;
    } else if m.q.th[t].EnqAdvance? || m.q.th[t].DeqAdvance? {
      k := 1;
      assert Solo(m.q, t, 1) == Solo(Step(m.q, Event(t, Fifo.Deq)), t, 0);
    } else {
      k := FillCase(m, t);
    }
  }

  lemma FillCase(m: Run, t: nat) returns (k: nat)
    requires Inv(m) && t < |m.q.th| && Fills(m.q, t)
    ensures k == 2 && k <= Left(m, t) && Gets(m.q, t, k, Fifo.Ok)
    ensures Current(m, t) ==> Answer(m, t) == Fifo.Ok
  {
    assert ThreadOk(m.q, m.log, t);
    FillAt(m.q.buf, m.q.n, |m.log.cons|, m.log.vals, m.q.th[t].tail);
    FillReturns(m.q, t);
    k := 2;
  }

  lemma {:induction false} HeadsReturns(m: Run, t: nat, bound: nat, current: bool, res: Res) returns (k: nat)
    requires Heads(m, t, bound, current, res)
    ensures k <= bound && Returns(m.q, t, k) && (current ==> Gets(m.q, t, k, res))
    decreases bound
  {
    if !Dequeuing(m.q.th[t]) && (Enqueuing(m.q.th[t]) ==> Fills(m.q, t)) {
      k := HeadsEnd(m, t, bound, current, res);
    } else {
      HeadsOn(m, t, bound, current, res);
      k := HeadsReturns(Go(m, t), t, bound - 1, current, res);
      OneFirst(m.q, Go(m, t).q, t, k, res);
      k := k + 1;
    }
  }

  /** From every state of a fresh run, at every point of a call: on its own it returns within 15 steps. */
  lemma SoloReturns(n: nat, threads: nat, sched: seq<Event>, t: nat) returns (k: nat)
    requires n > 0 && t < threads && FreshRun(New(n, threads), sched)
    requires !Final(Start(n, threads), sched).q.th[t].Resting?
    ensures k <= 15 && Returns(Final(Start(n, threads), sched).q, t, k)
  {
    StartInv(n, threads);
    RunInv(Start(n, threads), sched);
    var m := Final(Start(n, threads), sched);
    k := HeadsReturns(m, t, Left(m, t), false, Fifo.Ok);
  }

  /**
   From every state of a fresh run, whatever the other threads are doing: a Dequeue called by a
   thread at rest and running alone returns the value of the first position not taken, or
   refuses if all positions below `tail` are taken; an Enqueue refuses iff the `n` positions
   from `head` on are filled.  Both within 13 steps, the call included.
   */
  lemma LoneCalls(n: nat, threads: nat, sched: seq<Event>, t: nat, op: Op) returns (k: nat)
    requires n > 0 && t < threads && FreshRun(New(n, threads), sched)
    requires Final(Start(n, threads), sched).q.th[t].Resting?
    ensures var m := Final(Start(n, threads), sched);
      && k <= 13 && Wf(m.q) && |m.q.th| == threads && |m.log.cons| <= m.q.tail <= |m.log.vals|
      && Gets(Step(m.q, Event(t, op)), t, k,
           match op
           case Enq(_) => if |m.log.vals| == m.q.head + n then Fifo.WouldBlock else Fifo.Ok
           case Deq => if |m.log.cons| == m.q.tail then Fifo.WouldBlock else Fifo.Got(m.log.vals[|m.log.cons|]))
  {
    StartInv(n, threads);
    RunInv(Start(n, threads), sched);
    k := LoneCall(Final(Start(n, threads), sched), t, op);
  }

  lemma LoneCall(m: Run, t: nat, op: Op) returns (k: nat)
    requires Inv(m) && t < |m.q.th| && m.q.th[t].Resting?
    ensures k <= 13
    ensures Gets(Step(m.q, Event(t, op)), t, k,
      match op
      case Enq(_) => if |m.log.vals| == m.q.head + m.q.n then Fifo.WouldBlock else Fifo.Ok
      case Deq => if |m.log.cons| == m.q.tail then Fifo.WouldBlock else Fifo.Got(m.log.vals[|m.log.cons|]))
  {
    var m' := Next(m, Event(t, op));
    StepInv(m, Event(t, op));
    k := HeadsReturns(m', t, 13, true, Answer(m', t));
  }

  /** In a state without any call under way these are the indices themselves. */
  lemma QuietIndices(m: Run)
    requires Inv(m) && forall i :: 0 <= i < |m.q.th| ==> m.q.th[i].Resting?
    ensures |m.log.vals| == m.q.tail && |m.log.cons| == m.q.head
  {
  }
}
