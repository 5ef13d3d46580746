/**
 MPMCIndirect: the fetch-and-add protocol of mpmc_128.go over `2n` cycle-tagged entries.

 An entry is read and written as one 128-bit unit.  `Step` is one atomic access of one
 thread, with the local computation up to the next one.
 */
module MPMCIndirect {
  import opened Ring
  import opened TwoLap

  datatype Op = Enq(v: nat) | Deq | Drain

  datatype Res = Ok | Got(v: nat) | WouldBlock | Drained

  /** lo = cycle, hi = value */
  datatype Entry = Entry(cycle: nat, val: nat)

  datatype Local =
    | Resting
    | EnqLoadTail(v: nat)
    | EnqLoadHead(v: nat, tail: nat)
    | EnqClaim(v: nat)
    | EnqLoadSlot(v: nat, my: nat)
    | EnqFill(v: nat, my: nat, val: nat)
    | EnqReset(v: nat, my: nat)
    | DeqLoadDraining
    | DeqLoadThreshold
    | DeqClaim
    | DeqLoadSlot(my: nat)
    | DeqTake(my: nat, val: nat)
    | DeqRepair(my: nat, cycle: nat, val: nat)
    | DeqLoadTail(my: nat)
    | CatchCas(tail: nat, head: nat)
    | CatchLoadTail
    | CatchLoadHead(tail: nat)
    | DeqMiss
    | DeqCount
    | DeqRecheckDraining
    | StoreDraining
    | Returning(res: Res)

  datatype Queue = Queue(
    n: nat, tail: nat, head: nat, threshold: int, draining: bool, slots: seq<Entry>, th: seq<Local>)

  datatype Event = Event(t: nat, op: Op)

  function New(n: nat, threads: nat): Queue
    requires n > 0
  {
    Queue(n, 0, 0, 3 * n - 1, false, seq(2 * n, i requires 0 <= i => Entry(Cycle(i, n), 0)), seq(threads, _ => Resting))
  }

  predicate Wf(q: Queue) {
    q.n > 0 && |q.slots| == 2 * q.n
  }

  function Goto(q: Queue, t: nat, l: Local): Queue
    requires t < |q.th|
  {
    q.(th := q.th[t := l])
  }

  function Put(q: Queue, p: nat, e: Entry): Queue
    requires Wf(q)
  {
    q.(slots := q.slots[Place(p, q.n) := e])
  }

  function At(q: Queue, p: nat): Entry
    requires Wf(q)
  {
    q.slots[Place(p, q.n)]
  }

  function Begin(op: Op): Local {
    match op
    case Enq(v) => EnqLoadTail(v)
    case Deq => DeqLoadDraining
    case Drain => StoreDraining
  }

  /** The head of the catchup loop. */
  function Catchup(tail: nat, head: nat): Local {
    if tail < head then CatchCas(tail, head) else DeqMiss
  }

  function Step(q: Queue, e: Event): (r: Queue)
    requires Wf(q)
    ensures r.n == q.n && |r.slots| == |q.slots| && |r.th| == |q.th|
  {
    if e.t >= |q.th| then q else
    match q.th[e.t]
    case Resting => Goto(q, e.t, Begin(e.op))
    case EnqLoadTail(v) => Goto(q, e.t, EnqLoadHead(v, q.tail))
    case EnqLoadHead(v, tail) =>
      Goto(q, e.t, if tail >= q.head + q.n then Returning(WouldBlock) else EnqClaim(v))
    case EnqClaim(v) => Goto(q, e.t, EnqLoadSlot(v, q.tail)).(tail := q.tail + 1)
    case EnqLoadSlot(v, my) =>
      var c := At(q, my).cycle;
      Goto(q, e.t,
        if c == Cycle(my, q.n) then EnqFill(v, my, At(q, my).val)
        else if c < Cycle(my, q.n) then Returning(WouldBlock)
        else EnqLoadTail(v))
    case EnqFill(v, my, val) =>
      if At(q, my) == Entry(Cycle(my, q.n), val) then
        Put(Goto(q, e.t, EnqReset(v, my)), my, Entry(Cycle(my, q.n) + 1, v))
      else Goto(q, e.t, EnqLoadTail(v))
    case EnqReset(v, my) => Goto(q, e.t, Returning(Ok)).(threshold := 3 * q.n - 1)
    case DeqLoadDraining => Goto(q, e.t, if q.draining then DeqClaim else DeqLoadThreshold)
    case DeqLoadThreshold => Goto(q, e.t, if q.threshold < 0 then Returning(WouldBlock) else DeqClaim)
    case DeqClaim => Goto(q, e.t, DeqLoadSlot(q.head)).(head := q.head + 1)
    case DeqLoadSlot(my) =>
      var Entry(c, val) := At(q, my);
      Goto(q, e.t,
        if c == Cycle(my, q.n) + 1 then DeqTake(my, val)
        else if c < Cycle(my, q.n) + 1 then DeqRepair(my, c, val)
        else DeqClaim)
    case DeqTake(my, val) =>
      if At(q, my) == Entry(Cycle(my, q.n) + 1, val) then
        Put(Goto(q, e.t, Returning(Got(val))), my, Entry(Cycle(my + 2 * q.n, q.n), 0))
      else Goto(q, e.t, DeqClaim)
    case DeqRepair(my, c, val) =>
      if At(q, my) == Entry(c, val) then
        Put(Goto(q, e.t, DeqLoadTail(my)), my, Entry(Cycle(my + 2 * q.n, q.n), 0))
      else Goto(q, e.t, DeqLoadTail(my))
    case DeqLoadTail(my) => Goto(q, e.t, if q.tail <= my + 1 then Catchup(q.tail, my + 1) else DeqCount)
    case CatchCas(tail, head) =>
      if q.tail == tail then Goto(q, e.t, DeqMiss).(tail := head) else Goto(q, e.t, CatchLoadTail)
    case CatchLoadTail => Goto(q, e.t, CatchLoadHead(q.tail))
    case CatchLoadHead(tail) => Goto(q, e.t, Catchup(tail, q.head))
    case DeqMiss => Goto(q, e.t, Returning(WouldBlock)).(threshold := q.threshold - 1)
    case DeqCount =>
      Goto(q, e.t, if q.threshold - 1 <= 0 then DeqRecheckDraining else DeqClaim).(threshold := q.threshold - 1)
    case DeqRecheckDraining => Goto(q, e.t, if q.draining then DeqClaim else Returning(WouldBlock))
    case StoreDraining => Goto(q, e.t, Returning(Drained)).(draining := true)
    case Returning(_) => Goto(q, e.t, Resting)
  }

  function Exec(q: Queue, sched: seq<Event>): (r: Queue)
    requires Wf(q)
    ensures Wf(r) && r.n == q.n && |r.th| == |q.th|
    decreases sched
  {
    if sched == [] then q else Exec(Step(q, sched[0]), sched[1..])
  }

  // History: what happened, never read by Step

  /**
   `prod[p]` is the producer that claimed `p`, `filled[p]` the value it stored there,
   `cons[p]` the consumer that claimed `p`, `got[p]` the value it returned.  `at[j]` is the
   position slot `j` serves, `ver[j]` how often its entry was replaced, and `loaded[t]` that
   count when thread `t` last loaded an entry.
   */
  datatype Log = Log(
    prod: map<nat, nat>, filled: map<nat, nat>, cons: seq<nat>, got: map<nat, nat>,
    at: seq<nat>, ver: seq<nat>, loaded: seq<nat>)

  datatype Run = Run(q: Queue, log: Log)

  function Start(n: nat, threads: nat): Run
    requires n > 0
  {
    Run(New(n, threads),
        Log(map[], map[], [], map[], seq(2 * n, i requires 0 <= i => i), seq(2 * n, _ => 0), seq(threads, _ => 0)))
  }

  /** Slot of position `my` now serves position `p`. */
  function Serve(log: Log, j: nat, p: nat): Log
    requires j < |log.at| && j < |log.ver|
  {
    log.(at := log.at[j := p], ver := log.ver[j := log.ver[j] + 1])
  }

  predicate WfLog(m: Run) {
    Wf(m.q) && |m.log.at| == 2 * m.q.n && |m.log.ver| == 2 * m.q.n && |m.log.loaded| == |m.q.th|
  }

  function Record(m: Run, t: nat): (r: Log)
    requires WfLog(m) && t < |m.q.th|
    ensures |r.at| == |m.log.at| && |r.ver| == |m.log.ver| && |r.loaded| == |m.log.loaded|
  {
    var q, log := m.q, m.log;
    match q.th[t]
    case EnqClaim(_) => log.(prod := log.prod[q.tail := t])
    case EnqLoadSlot(_, my) => log.(loaded := log.loaded[t := log.ver[Place(my, q.n)]])
    case EnqFill(v, my, val) =>
      if At(q, my) == Entry(Cycle(my, q.n), val) then
        Serve(log.(filled := log.filled[my := v]), Place(my, q.n), my)
      else log
    case DeqClaim => log.(cons := log.cons + [t])
    case DeqLoadSlot(my) => log.(loaded := log.loaded[t := log.ver[Place(my, q.n)]])
    case DeqTake(my, val) =>
      if At(q, my) == Entry(Cycle(my, q.n) + 1, val) then
        Serve(log.(got := log.got[my := val]), Place(my, q.n), my + 2 * q.n)
      else log
    case DeqRepair(my, c, val) =>
      if At(q, my) == Entry(c, val) then Serve(log, Place(my, q.n), my + 2 * q.n) else log
    case _ => log
  }

  function Next(m: Run, e: Event): (r: Run)
    requires WfLog(m)
    ensures WfLog(r)
  {
    Run(Step(m.q, e), if e.t < |m.q.th| then Record(m, e.t) else m.log)
  }

  function Final(m: Run, sched: seq<Event>): (r: Run)
    requires WfLog(m)
    ensures WfLog(r) && r.q == Exec(m.q, sched)
    decreases sched
  {
    if sched == [] then m else Final(Next(m, sched[0]), sched[1..])
  }
}
