/**
 Progress of MPMCSeq: how many steps a call can make, what a call does on its own, and what it
 then answers.  (A stopped claimer can make calls refuse, see MPMCSeqLimits.)
 */
module MPMCSeqProgress {
  import opened Ring
  import opened MPMCSeq
  import opened MPMCSeqProof
  import Fifo = BoundedFifo

  predicate Enqueuing(l: Local) {
    l.EnqLoadTail? || l.EnqLoadNum? || l.EnqClaim?
  }

  predicate Dequeuing(l: Local) {
    l.DeqLoadHead? || l.DeqLoadNum? || l.DeqClaim?
  }

  /** Moving from `l` to `l'` goes back to the top of the loop. */
  predicate LoopsAgain(l: Local, l': Local) {
    (Enqueuing(l) && l'.EnqLoadTail?) || (Dequeuing(l) && l'.DeqLoadHead?)
  }

  /** A thread goes round its loop again only after its index moved past what it had loaded. */
  lemma LoopProgress(m: Run, e: Event)
    requires Inv(m) && e.t < |m.q.th| && LoopsAgain(m.q.th[e.t], Next(m, e).q.th[e.t])
    ensures Enqueuing(m.q.th[e.t]) ==> !m.q.th[e.t].EnqLoadTail? && m.q.tail > m.q.th[e.t].tail
    ensures Dequeuing(m.q.th[e.t]) ==> !m.q.th[e.t].DeqLoadHead? && m.q.head > m.q.th[e.t].head
  {
    assert LocalOk(m.q, m.log, e.t);
    if m.q.tail < m.q.head + m.q.n {
      assert FreeOk(m.q, m.log, m.q.tail);
    } else {
      assert Slot(m.q.tail, m.q.n) == Slot(m.q.head, m.q.n);
    }
    if m.q.head < m.q.tail {
      assert ClaimedOk(m.q, m.log, m.q.head);
    }
  }

  /** The index an operation advances. */
  function Index(q: Queue, op: Op): nat {
    match op
    case Enq(_) => q.tail
    case Deq => q.head
  }

  /** The own steps since the last return to the top of the loop. */
  function Rank(l: Local): nat {
    match l
    case Resting => 0
    case EnqLoadTail(_) => 1
    case EnqLoadNum(_, _) => 2
    case EnqClaim(_, _) => 3
    case EnqWrite(_, _) => 4
    case EnqPublish(_, _) => 5
    case DeqLoadHead => 1
    case DeqLoadNum(_) => 2
    case DeqClaim(_) => 3
    case DeqRead(_) => 4
    case DeqClear(_, _) => 5
    case DeqRelease(_, _) => 6
    case Returning(_) => 7
  }

  /**
   A run with, for the running call of each thread, its operation, the index it started from,
   its extra trips and its own steps.
   */
  datatype Count = Count(m: Run, op: seq<Op>, base: seq<nat>, trips: seq<nat>, steps: seq<nat>)

  ghost predicate WfCount(c: Count) {
    Wf(c.m.q) && |c.op| == |c.base| == |c.trips| == |c.steps| == |c.m.q.th|
  }

  function Begun(n: nat, threads: nat): Count {
    var none := seq(threads, _ => 0);
    Count(Start(n, threads), seq(threads, _ => Fifo.Deq), none, none, none)
  }

  ghost function NextCount(c: Count, e: Event): (r: Count)
    requires WfCount(c)
    ensures WfCount(r) && r.m == Next(c.m, e)
  {
    var m' := Next(c.m, e);
    if e.t >= |c.m.q.th| then c.(m := m')
    else
      var l, l' := c.m.q.th[e.t], m'.q.th[e.t];
      if l.Resting? then
        Count(m', c.op[e.t := e.op], c.base[e.t := Index(c.m.q, e.op)], c.trips[e.t := 0], c.steps[e.t := 1])
      else
        Count(m', c.op, c.base,
          c.trips[e.t := c.trips[e.t] + if LoopsAgain(l, l') then 1 else 0],
          c.steps[e.t := if l'.Resting? then 0 else c.steps[e.t] + 1])
  }

  ghost function FinalCount(c: Count, sched: seq<Event>): (r: Count)
    requires WfCount(c)
    ensures WfCount(r) && r.m == Final(c.m, sched) && |r.m.q.th| == |c.m.q.th|
    decreases sched
  {
    if sched == [] then c else FinalCount(NextCount(c, sched[0]), sched[1..])
  }

  /**
   The index has moved at least once per trip since the call began, while it is going round
   never for this call, and the steps are three per trip and those of the last one.
   */
  ghost predicate TripsOk(c: Count, i: nat)
    requires WfCount(c) && i < |c.m.q.th|
  {
    var l, least, log := c.m.q.th[i], c.base[i] + c.trips[i], c.m.log;
    !l.Resting? ==>
      && c.steps[i] <= 3 * c.trips[i] + Rank(l) && least <= Index(c.m.q, c.op[i])
      && (Enqueuing(l) ==>
            && c.op[i].Enq? && (!l.EnqLoadTail? ==> least <= l.tail)
            && forall p :: c.base[i] <= p < |log.prod| ==> log.prod[p] != i)
      && (Dequeuing(l) ==>
            && c.op[i].Deq? && (!l.DeqLoadHead? ==> least <= l.head)
            && forall p :: c.base[i] <= p < |log.cons| ==> log.cons[p] != i)
  }

  ghost predicate CountInv(c: Count) {
    WfCount(c) && Inv(c.m) && forall i :: 0 <= i < |c.m.q.th| ==> TripsOk(c, i)
  }

  /** What a step does to the thread that makes it. */
  predicate Shape(q: Queue, q': Queue, l: Local, l': Local, op: Op) {
    && q.tail <= q'.tail && q.head <= q'.head
    && (l.Resting? ==> l' == Begin(op))
    && (!l.Resting? ==> l'.Resting? || Rank(l') > Rank(l) || (LoopsAgain(l, l') && Rank(l) <= 3))
    && (!l.Resting? && Enqueuing(l') ==> Enqueuing(l))
    && (l'.EnqLoadNum? ==> l.EnqLoadTail? && l'.tail == q.tail)
    && (l'.EnqClaim? ==> l.EnqLoadNum? && l'.tail == l.tail)
    && (!l.Resting? && Dequeuing(l') ==> Dequeuing(l))
    && (l'.DeqLoadNum? ==> l.DeqLoadHead? && l'.head == q.head)
    && (l'.DeqClaim? ==> l.DeqLoadNum? && l'.head == l.head)
  }

  lemma StepShape(m: Run, e: Event)
    requires Inv(m) && e.t < |m.q.th|
    ensures Next(m, e).q.th == m.q.th[e.t := Next(m, e).q.th[e.t]]
    ensures Shape(m.q, Next(m, e).q, m.q.th[e.t], Next(m, e).q.th[e.t], e.op)
  {
  }

  lemma StepHistory(m: Run, e: Event)
    requires Inv(m) && e.t < |m.q.th|
    ensures var log, log', l' := m.log, Next(m, e).log, Next(m, e).q.th[e.t];
      && (log'.prod == log.prod || (log'.prod == log.prod + [e.t] && !Enqueuing(l') && !Dequeuing(l')))
      && (log'.cons == log.cons || (log'.cons == log.cons + [e.t] && !Enqueuing(l') && !Dequeuing(l')))
  {
  }

  lemma OtherTrips(c: Count, e: Event, i: nat)
    requires CountInv(c) && i < |c.m.q.th| && e.t != i
    ensures TripsOk(NextCount(c, e), i)
  {
    assert TripsOk(c, i);
    if e.t < |c.m.q.th| {
      StepShape(c.m, e);
      StepHistory(c.m, e);
    }
  }

  lemma OwnTrips(c: Count, e: Event)
    requires CountInv(c) && e.t < |c.m.q.th|
    ensures TripsOk(NextCount(c, e), e.t)
  {
    assert TripsOk(c, e.t) && LocalOk(c.m.q, c.m.log, e.t);
    StepShape(c.m, e);
    StepHistory(c.m, e);
    if LoopsAgain(c.m.q.th[e.t], Next(c.m, e).q.th[e.t]) {
      LoopProgress(c.m, e);
    }
    TripsKept(c, NextCount(c, e), e);
  }

  /** What a step adds to the counts of the thread that makes it. */
  predicate Counted(c: Count, c': Count, t: nat, op: Op)
    requires |c.op| == |c.base| == |c.trips| == |c.steps| == |c.m.q.th| && t < |c.m.q.th|
    requires |c'.op| == |c'.base| == |c'.trips| == |c'.steps| == |c'.m.q.th| == |c.m.q.th|
  {
    var l, l' := c.m.q.th[t], c'.m.q.th[t];
    if l.Resting? then
      c'.op[t] == op && c'.base[t] == Index(c.m.q, op) && c'.trips[t] == 0 && c'.steps[t] == 1
    else
      && c'.op[t] == c.op[t] && c'.base[t] == c.base[t]
      && c'.trips[t] == c.trips[t] + (if LoopsAgain(l, l') then 1 else 0)
      && c'.steps[t] == if l'.Resting? then 0 else c.steps[t] + 1
  }

  lemma TripsKept(c: Count, c': Count, e: Event)
    requires CountInv(c) && WfCount(c') && e.t < |c.m.q.th| == |c'.m.q.th| && TripsOk(c, e.t)
    requires Indices(c'.m.q, c'.m.log) && Counted(c, c', e.t, e.op)
    requires Shape(c.m.q, c'.m.q, c.m.q.th[e.t], c'.m.q.th[e.t], e.op)
    requires var l, l' := c.m.q.th[e.t], c'.m.q.th[e.t];
      && (LoopsAgain(l, l') && Enqueuing(l) ==> !l.EnqLoadTail? && c.m.q.tail > l.tail)
      && (LoopsAgain(l, l') && Dequeuing(l) ==> !l.DeqLoadHead? && c.m.q.head > l.head)
    requires Enqueuing(c'.m.q.th[e.t]) || Dequeuing(c'.m.q.th[e.t]) ==>
      c'.m.log.prod == c.m.log.prod && c'.m.log.cons == c.m.log.cons
    ensures TripsOk(c', e.t)
  {
  }

  lemma {:induction false} CountRun(c: Count, sched: seq<Event>)
    requires CountInv(c)
    ensures CountInv(FinalCount(c, sched))
    decreases sched
  {
    if sched == [] {
    } else {
      var e := sched[0];
      StepInv(c.m, e);
      forall i | 0 <= i < |c.m.q.th|
        ensures TripsOk(NextCount(c, e), i)
      {
        if e.t == i { OwnTrips(c, e); } else { OtherTrips(c, e, i); }
      }
      CountRun(NextCount(c, e), sched[1..]);
    }
  }

  lemma BegunRun(n: nat, threads: nat, sched: seq<Event>) returns (c: Count)
    requires n >= 2
    ensures c == FinalCount(Begun(n, threads), sched) && CountInv(c) && |c.m.q.th| == threads
    ensures c.m == Final(Start(n, threads), sched)
  {
    StartInv(n, threads);
    CountRun(Begun(n, threads), sched);
    c := FinalCount(Begun(n, threads), sched);
  }

  /**
   In every reachable state, a call that has gone round its loop `k` times has seen its index
   advance at least `k` times since it began, each time for another thread.
   */
  lemma LockFree(n: nat, threads: nat, sched: seq<Event>, t: nat)
    requires n >= 2 && t < threads
    ensures var c := FinalCount(Begun(n, threads), sched);
      && c.m == Final(Start(n, threads), sched) && Inv(c.m)
      && (Enqueuing(c.m.q.th[t]) ==>
            && c.trips[t] <= c.m.q.tail - c.base[t]
            && forall p :: c.base[t] <= p < c.m.q.tail ==> c.m.log.prod[p] != t)
      && (Dequeuing(c.m.q.th[t]) ==>
            && c.trips[t] <= c.m.q.head - c.base[t]
            && forall p :: c.base[t] <= p < c.m.q.head ==> c.m.log.cons[p] != t)
  {
    var c := BegunRun(n, threads, sched);
    assert TripsOk(c, t);
  }

  /**
   In every run: a call that has not returned has made at most `3 * d + 7` steps of its own,
   where `d` is how far its index has advanced since it began.
   */
  lemma StepBound(n: nat, threads: nat, sched: seq<Event>, t: nat)
    requires n >= 2 && t < threads
    ensures var c := FinalCount(Begun(n, threads), sched);
      && c.m == Final(Start(n, threads), sched)
      && (!c.m.q.th[t].Resting? ==> c.steps[t] <= 3 * (Index(c.m.q, c.op[t]) - c.base[t]) + 7)
  {
    var c := BegunRun(n, threads, sched);
    assert TripsOk(c, t);
  }

  // A call on its own

  function Solo(q: Queue, t: nat, k: nat): (r: Queue)
    requires Wf(q)
    ensures Wf(r) && |r.th| == |q.th|
    decreases k
  {
    if k == 0 then q else Solo(Step(q, Event(t, Fifo.Deq)), t, k - 1)
  }

  /** After `k` steps on its own the call of thread `t` has its answer. */
  predicate Returns(q: Queue, t: nat, k: nat) {
    Wf(q) && t < |q.th| && Solo(q, t, k).th[t].Returning?
  }

  predicate Gets(q: Queue, t: nat, k: nat, res: Res) {
    Wf(q) && t < |q.th| && Solo(q, t, k).th[t] == Returning(res)
  }

  lemma OneFirst(q: Queue, q': Queue, t: nat, k: nat, res: Res)
    requires Wf(q) && q' == Step(q, Event(t, Fifo.Deq))
    ensures Returns(q', t, k) ==> Returns(q, t, k + 1)
    ensures Gets(q', t, k, res) ==> Gets(q, t, k + 1, res)
  {
  }

  /** How many more steps the call of thread `t` needs on its own, at most. */
  function Left(q: Queue, l: Local): (k: nat)
    ensures k <= 8
  {
    match l
    case EnqLoadTail(_) => 5
    case EnqLoadNum(_, tail) => if tail == q.tail then 4 else 7
    case EnqClaim(_, tail) => if tail == q.tail then 3 else 6
    case EnqWrite(_, _) => 2
    case EnqPublish(_, _) => 1
    case DeqLoadHead => 6
    case DeqLoadNum(head) => if head == q.head then 5 else 8
    case DeqClaim(head) => if head == q.head then 4 else 7
    case DeqRead(_) => 3
    case DeqClear(_, _) => 2
    case DeqRelease(_, _) => 1
    case _ => 0
  }

  /** What thread `t` has loaded is still so. */
  predicate Current(q: Queue, l: Local) {
    match l
    case EnqLoadNum(_, tail) => tail == q.tail
    case EnqClaim(_, tail) => tail == q.tail
    case DeqLoadNum(head) => head == q.head
    case DeqClaim(head) => head == q.head
    case _ => true
  }

  /** Full means that the slot of `tail` is not released, empty that position `head` is not published. */
  ghost function Answer(m: Run, l: Local): Res
    requires Inv(m)
  {
    var q := m.q;
    if l.Returning? then l.res
    else if l.EnqWrite? || l.EnqPublish? then Fifo.Ok
    else if l.DeqRead? then (if l.head < |m.log.vals| then Fifo.Got(m.log.vals[l.head]) else Fifo.WouldBlock)
    else if l.DeqClear? || l.DeqRelease? then Fifo.Got(l.v)
    else if Enqueuing(l) then (if Num(q, q.tail) < q.tail then Fifo.WouldBlock else Fifo.Ok)
    else if Num(q, q.head) < q.head + 1 || q.head == q.tail then Fifo.WouldBlock
    else Fifo.Got(m.log.vals[q.head])
  }

  function Go(m: Run, t: nat): Run
    requires Wf(m.q)
  {
    Next(m, Event(t, Fifo.Deq))
  }

  /** Thread `t` needs at most `bound` steps, and if what it loaded is current, `res` will be its answer. */
  ghost predicate Heads(m: Run, t: nat, bound: nat, current: bool, res: Res) {
    && Inv(m) && t < |m.q.th| && !m.q.th[t].Resting? && Left(m.q, m.q.th[t]) <= bound
    && (current ==> Current(m.q, m.q.th[t]) && Answer(m, m.q.th[t]) == res)
  }

  lemma EnqueueHeads(m: Run, t: nat, bound: nat, current: bool, res: Res)
    requires Heads(m, t, bound, current, res) && Inv(Go(m, t))
    requires Enqueuing(m.q.th[t]) || m.q.th[t].EnqWrite? || m.q.th[t].EnqPublish?
    ensures bound > 0 && Heads(Go(m, t), t, bound - 1, current, res)
  {
    assert LocalOk(m.q, m.log, t);
    if LoopsAgain(m.q.th[t], Go(m, t).q.th[t]) {
      LoopProgress(m, Event(t, Fifo.Deq));
    }
  }

  lemma DequeueHeads(m: Run, t: nat, bound: nat, current: bool, res: Res)
    requires Heads(m, t, bound, current, res) && Inv(Go(m, t))
    requires Dequeuing(m.q.th[t]) || m.q.th[t].DeqRead? || m.q.th[t].DeqClear? || m.q.th[t].DeqRelease?
    ensures bound > 0 && Heads(Go(m, t), t, bound - 1, current, res)
  {
    assert LocalOk(m.q, m.log, t);
    if LoopsAgain(m.q.th[t], Go(m, t).q.th[t]) {
      LoopProgress(m, Event(t, Fifo.Deq));
    }
    if m.q.th[t].DeqLoadNum? {
      ConsumerSees(m, m.q.th[t].head);
    }
  }

  lemma {:induction false} HeadsReturns(m: Run, t: nat, bound: nat, current: bool, res: Res) returns (k: nat)
    requires Heads(m, t, bound, current, res)
    ensures k <= bound && Returns(m.q, t, k) && (current ==> Gets(m.q, t, k, res))
    decreases bound
  {
    if m.q.th[t].Returning? {
      k := 0;
    } else {
      StepInv(m, Event(t, Fifo.Deq));
      if Enqueuing(m.q.th[t]) || m.q.th[t].EnqWrite? || m.q.th[t].EnqPublish? {
        EnqueueHeads(m, t, bound, current, res);
      } else {
        DequeueHeads(m, t, bound, current, res);
      }
      k := HeadsReturns(Go(m, t), t, bound - 1, current, res);
      OneFirst(m.q, Go(m, t).q, t, k, res);
      k := k + 1;
    }
  }

  /** From every reachable state, at every point of a call: on its own it returns within 8 steps. */
  lemma SoloReturns(n: nat, threads: nat, sched: seq<Event>, t: nat) returns (k: nat)
    requires n >= 2 && t < threads && !Exec(New(n, threads), sched).th[t].Resting?
    ensures k <= 8 && Returns(Exec(New(n, threads), sched), t, k)
  {
    StartInv(n, threads);
    RunInv(Start(n, threads), sched);
    var m := Final(Start(n, threads), sched);
    k := HeadsReturns(m, t, Left(m.q, m.q.th[t]), false, Fifo.Ok);
  }

  /**
   From every reachable state, whatever the other threads are doing, a call by a thread at rest
   and running alone: Enqueue refuses iff the slot of `tail` is not released, Dequeue refuses
   iff position `head` is not published, and otherwise returns the value claimed for `head`.
   */
  lemma LoneCalls(n: nat, threads: nat, sched: seq<Event>, t: nat, op: Op) returns (k: nat)
    requires n >= 2 && t < threads && Exec(New(n, threads), sched).th[t].Resting?
    ensures var m := Final(Start(n, threads), sched);
      && k <= 6 && Inv(m)
      && Gets(Step(m.q, Event(t, op)), t, k,
           match op
           case Enq(_) => if Num(m.q, m.q.tail) < m.q.tail then Fifo.WouldBlock else Fifo.Ok
           case Deq =>
             if Num(m.q, m.q.head) < m.q.head + 1 || m.q.head == m.q.tail then Fifo.WouldBlock
             else Fifo.Got(m.log.vals[m.q.head]))
  {
    StartInv(n, threads);
    RunInv(Start(n, threads), sched);
    var m := Final(Start(n, threads), sched);
    var m' := Next(m, Event(t, op));
    StepInv(m, Event(t, op));
    k := HeadsReturns(m', t, 6, true, Answer(m', m'.q.th[t]));
  }
}
