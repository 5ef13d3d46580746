/**
 Progress of MPSCCompactIndirect: how many steps a call can make, what an Enqueue does on its
 own, and what it then answers.
 */
module MPSCCompactProgress {
  import opened Ring
  import opened CompactRing
  import opened MPSCCompact
  import opened MPSCCompactProof
  import Fifo = BoundedFifo

  /** Inside the loop of Enqueue. */
  predicate Enqueuing(l: Producer) {
    l.LoadTail? || l.LoadHead? || l.Fill? || l.Help?
  }

  /** Moving from `l` to `l'` goes back to the top of the loop. */
  predicate LoopsAgain(l: Producer, l': Producer) {
    Enqueuing(l) && l'.LoadTail?
  }

  /** A thread goes round its loop again only after `tail` moved past what it had loaded. */
  lemma LoopProgress(m: Run, e: Event)
    requires Inv(m) && e.Producing? && e.t < |m.q.th| && LoopsAgain(m.q.th[e.t], Next(m, e).q.th[e.t])
    ensures m.q.th[e.t].Help? && Next(m, e).q.tail > m.q.th[e.t].tail
  {
    assert ProducerOk(m.q, m.log, e.t);
  }

  /** The own steps since the last return to the top of the loop. */
  function Rank(l: Producer): nat {
    match l
    case Resting => 0
    case LoadTail(_) => 1
    case LoadHead(_, _) => 2
    case Fill(_, _) => 3
    case Advance(_, _) => 4
    case Help(_, _) => 4
    case Returning(_) => 5
  }

  function ConsumerRank(l: Consumer): nat {
    match l
    case Away => 0
    case ReadHead => 1
    case ReadTail(_) => 2
    case Load(_) => 3
    case Store(_, _) => 4
    case Move(_, _) => 5
    case Leaving(_) => 6
  }

  /**
   A run with, for the running call of each producer, the `tail` it started from, its extra
   trips and its own steps; and the own steps of the consumer's call.
   */
  datatype Count = Count(m: Run, base: seq<nat>, trips: seq<nat>, steps: seq<nat>, takes: nat)

  ghost predicate WfCount(c: Count) {
    Wf(c.m.q) && |c.base| == |c.trips| == |c.steps| == |c.m.q.th|
  }

  function Begun(n: nat, producers: nat): Count {
    var none := seq(producers, _ => 0);
    Count(Start(n, producers), none, none, none, 0)
  }

  ghost function NextCount(c: Count, e: Event): (r: Count)
    requires WfCount(c)
    ensures WfCount(r) && r.m == Next(c.m, e)
  {
    var m' := Next(c.m, e);
    match e
    case Consuming => c.(m := m', takes := if m'.q.con.Away? then 0 else c.takes + 1)
    case Producing(t, _) =>
      if t >= |c.m.q.th| then c.(m := m')
      else
        var l, l' := c.m.q.th[t], m'.q.th[t];
        if l.Resting? then
          c.(m := m', base := c.base[t := c.m.q.tail], trips := c.trips[t := 0], steps := c.steps[t := 1])
        else
          c.(m := m',
             trips := c.trips[t := c.trips[t] + if LoopsAgain(l, l') then 1 else 0],
             steps := c.steps[t := if l'.Resting? then 0 else c.steps[t] + 1])
  }

  ghost function FinalCount(c: Count, sched: seq<Event>): (r: Count)
    requires WfCount(c)
    ensures WfCount(r) && r.m == Final(c.m, sched) && |r.m.q.th| == |c.m.q.th|
    decreases sched
  {
    if sched == [] then c else FinalCount(NextCount(c, sched[0]), sched[1..])
  }

  /**
   `tail` has moved at least once per trip since the call began, while it is going round never
   for this call, and the steps are four per trip and those of the last one.
   */
  ghost predicate TripsOk(c: Count, i: nat)
    requires WfCount(c) && i < |c.m.q.th|
  {
    var l, least, prod := c.m.q.th[i], c.base[i] + c.trips[i], c.m.log.prod;
    !l.Resting? ==>
      && c.steps[i] <= 4 * c.trips[i] + Rank(l) && least <= c.m.q.tail
      && (Enqueuing(l) ==>
            && (!l.LoadTail? ==> least <= l.tail)
            && forall p :: c.base[i] <= p < |prod| ==> prod[p] != i)
  }

  ghost predicate CountInv(c: Count) {
    && WfCount(c) && Inv(c.m) && c.takes <= ConsumerRank(c.m.q.con)
    && forall i :: 0 <= i < |c.m.q.th| ==> TripsOk(c, i)
  }

  /** What a step of another thread leaves to producer `i`. */
  lemma OtherTrips(c: Count, e: Event, i: nat)
    requires CountInv(c) && i < |c.m.q.th| && (e.Producing? ==> e.t != i)
    ensures TripsOk(NextCount(c, e), i)
  {
    assert TripsOk(c, i);
  }

  lemma OwnTrips(c: Count, e: Event)
    requires CountInv(c) && e.Producing? && e.t < |c.m.q.th|
    ensures TripsOk(NextCount(c, e), e.t)
  {
    var m := c.m;
    assert TripsOk(c, e.t) && ProducerOk(m.q, m.log, e.t);
    if m.q.th[e.t].Resting? && m.q.tail < |m.log.prod| {
      assert m.log.prod[m.q.tail] != e.t;
    }
  }

  lemma {:induction false} CountRun(c: Count, sched: seq<Event>)
    requires CountInv(c)
    ensures CountInv(FinalCount(c, sched))
    decreases sched
  {
    if sched == [] {
    } else {
      CountStep(c, sched[0]);
      CountRun(NextCount(c, sched[0]), sched[1..]);
    }
  }

  lemma TakesStep(c: Count, e: Event)
    requires WfCount(c) && c.takes <= ConsumerRank(c.m.q.con)
    ensures NextCount(c, e).takes <= ConsumerRank(NextCount(c, e).m.q.con)
  {
  }

  lemma CountStep(c: Count, e: Event)
    requires CountInv(c)
    ensures CountInv(NextCount(c, e))
  {
    StepInv(c.m, e);
    TakesStep(c, e);
    forall i | 0 <= i < |c.m.q.th|
      ensures TripsOk(NextCount(c, e), i)
    {
      if e.Producing? && e.t == i { OwnTrips(c, e); } else { OtherTrips(c, e, i); }
    }
  }

  lemma BegunRun(n: nat, producers: nat, sched: seq<Event>) returns (c: Count)
    requires n > 0
    ensures c == FinalCount(Begun(n, producers), sched) && CountInv(c) && |c.m.q.th| == producers
    ensures c.m == Final(Start(n, producers), sched)
  {
    StartInv(n, producers);
    CountRun(Begun(n, producers), sched);
    c := FinalCount(Begun(n, producers), sched);
  }

  /**
   Lock-freedom: in every reachable state, an Enqueue that has gone round its loop `k` times
   has seen `tail` advance at least `k` times since it began, each time for another producer.
   */
  lemma LockFree(n: nat, producers: nat, sched: seq<Event>, t: nat)
    requires n > 0 && t < producers
    ensures var c := FinalCount(Begun(n, producers), sched);
      && c.m == Final(Start(n, producers), sched) && Inv(c.m)
      && (Enqueuing(c.m.q.th[t]) ==>
            && c.trips[t] <= c.m.q.tail - c.base[t]
            && forall p :: c.base[t] <= p < c.m.q.tail ==> c.m.log.prod[p] != t)
  {
    var c := BegunRun(n, producers, sched);
    assert TripsOk(c, t) && ProducerOk(c.m.q, c.m.log, t);
  }

  lemma StepsBounded(c: Count, t: nat)
    requires CountInv(c) && t < |c.m.q.th| && !c.m.q.th[t].Resting?
    ensures c.steps[t] <= 4 * (c.m.q.tail - c.base[t]) + 5
  {
    assert TripsOk(c, t);
  }

  /**
   In every run: an Enqueue that has not returned has made at most `4 * d + 5` steps of its
   own, where `d` is how far `tail` has advanced since it began; a Dequeue at most 6.
   */
  lemma StepBound(n: nat, producers: nat, sched: seq<Event>, t: nat)
    requires n > 0 && t < producers
    ensures var c := FinalCount(Begun(n, producers), sched);
      && c.m == Final(Start(n, producers), sched) && c.takes <= 6
      && (!c.m.q.th[t].Resting? ==> c.steps[t] <= 4 * (c.m.q.tail - c.base[t]) + 5)
  {
    var c := BegunRun(n, producers, sched);
    if !c.m.q.th[t].Resting? {
      StepsBounded(c, t);
    }
  }

  // An Enqueue on its own

  function Solo(q: Queue, t: nat, k: nat): (r: Queue)
    requires Wf(q)
    ensures Wf(r) && |r.th| == |q.th|
    decreases k
  {
    if k == 0 then q else Solo(Step(q, Producing(t, 0)), t, k - 1)
  }

  /** After `k` steps on its own the call of producer `t` has its answer. */
  predicate Gets(q: Queue, t: nat, k: nat, res: Res) {
    Wf(q) && t < |q.th| && Solo(q, t, k).th[t] == Returning(res)
  }

  predicate Returns(q: Queue, t: nat, k: nat) {
    Wf(q) && t < |q.th| && Solo(q, t, k).th[t].Returning?
  }

  lemma OneFirst(q: Queue, q': Queue, t: nat, k: nat, res: Res)
    requires Wf(q) && q' == Step(q, Producing(t, 0))
    ensures Returns(q', t, k) ==> Returns(q, t, k + 1)
    ensures Gets(q', t, k, res) ==> Gets(q, t, k + 1, res)
  {
  }

  /** How many more steps the call of producer `t` needs on its own, at most. */
  ghost function Left(m: Run, l: Producer): (k: nat)
    ensures k <= 11
  {
    var lag := m.q.tail < |m.log.vals|;
    var all := if lag then 8 else 4;
    match l
    case LoadTail(_) => all
    case LoadHead(_, tail) => if tail == m.q.tail then all - 1 else all + 3
    case Fill(_, tail) => if tail == |m.log.vals| then 2 else if tail == m.q.tail then 6 else all + 2
    case Help(_, tail) => if tail == m.q.tail then 5 else all + 1
    case Advance(_, _) => 1
    case _ => 0
  }

  predicate Current(q: Queue, l: Producer) {
    (l.LoadHead? || l.Fill? ==> l.tail == q.tail)
  }

  /** Full means that all `n` positions from `head` on are filled, whether or not `tail` has passed the last one. */
  ghost function Answer(m: Run, l: Producer): Res {
    if l.Returning? then l.res
    else if l.Advance? then Fifo.Ok
    else if |m.log.vals| == m.q.head + m.q.n then Fifo.WouldBlock
    else Fifo.Ok
  }

  ghost predicate Heads(m: Run, t: nat, bound: nat, current: bool, res: Res) {
    && Inv(m) && t < |m.q.th| && !m.q.th[t].Resting? && Left(m, m.q.th[t]) <= bound
    && (current ==> Current(m.q, m.q.th[t]) && Answer(m, m.q.th[t]) == res)
  }

  lemma HeadsOn(m: Run, t: nat, bound: nat, current: bool, res: Res)
    requires Heads(m, t, bound, current, res) && !m.q.th[t].Returning? && !m.q.th[t].Fill?
    requires Inv(Next(m, Producing(t, 0)))
    ensures bound > 0 && Heads(Next(m, Producing(t, 0)), t, bound - 1, current, res)
  {
    assert ProducerOk(m.q, m.log, t);
  }

  lemma FillOn(m: Run, t: nat, bound: nat, current: bool, res: Res)
    requires Heads(m, t, bound, current, res) && m.q.th[t].Fill? && Inv(Next(m, Producing(t, 0)))
    ensures bound > 0 && Heads(Next(m, Producing(t, 0)), t, bound - 1, current, res)
  {
    assert ProducerOk(m.q, m.log, t);
    FillAt(m.q.buf, m.q.n, m.log.taken, m.log.vals, m.q.th[t].tail);
  }

  lemma {:induction false} HeadsReturns(m: Run, t: nat, bound: nat, current: bool, res: Res) returns (k: nat)
    requires Heads(m, t, bound, current, res)
    ensures k <= bound && Returns(m.q, t, k) && (current ==> Gets(m.q, t, k, res))
    decreases bound
  {
    if m.q.th[t].Returning? {
      k := 0;
    } else {
      var m' := Next(m, Producing(t, 0));
      StepInv(m, Producing(t, 0));
      if m.q.th[t].Fill? {
        FillOn(m, t, bound, current, res);
      } else {
        HeadsOn(m, t, bound, current, res);
      }
      k := HeadsReturns(m', t, bound - 1, current, res);
      OneFirst(m.q, m'.q, t, k, res);
      k := k + 1;
    }
  }

  /** From every reachable state, at every point of a call: on its own an Enqueue returns within 11 steps. */
  lemma SoloReturns(n: nat, producers: nat, sched: seq<Event>, t: nat) returns (k: nat)
    requires n > 0 && t < producers && !Final(Start(n, producers), sched).q.th[t].Resting?
    ensures k <= 11 && Returns(Final(Start(n, producers), sched).q, t, k)
  {
    StartInv(n, producers);
    RunInv(Start(n, producers), sched);
    var m := Final(Start(n, producers), sched);
    k := HeadsReturns(m, t, Left(m, m.q.th[t]), false, Fifo.Ok);
  }

  /**
   From every reachable state, whatever the others are doing: an Enqueue called by a producer at
   rest and running alone refuses iff the `n` positions from `head` on are filled.
   */
  lemma LoneEnqueue(n: nat, producers: nat, sched: seq<Event>, t: nat, v: nat) returns (k: nat)
    requires n > 0 && t < producers && Final(Start(n, producers), sched).q.th[t].Resting?
    ensures var m := Final(Start(n, producers), sched);
      && k <= 8
      && Gets(Step(m.q, Producing(t, v)), t, k,
           if |m.log.vals| == m.q.head + n then Fifo.WouldBlock else Fifo.Ok)
  {
    StartInv(n, producers);
    RunInv(Start(n, producers), sched);
    var m := Final(Start(n, producers), sched);
    var m' := Next(m, Producing(t, v));
    StepInv(m, Producing(t, v));
    k := HeadsReturns(m', t, 8, true, Answer(m', m'.q.th[t]));
  }
}
