/**
 MPMCSeq: the queue of mpmc_seq.go (after Vyukov).  An index CAS claims a position; then the
 slot's data is accessed without atomics; then the slot's sequence number hands it over.
 */
module MPMCSeq {
  import opened Ring
  import Fifo = BoundedFifo

  type Op = Fifo.Op<nat>
  type Res = Fifo.Res<nat>

  datatype Local =
    | Resting
    | EnqLoadTail(v: nat)
    | EnqLoadNum(v: nat, tail: nat)
    | EnqClaim(v: nat, tail: nat)
    | EnqWrite(v: nat, tail: nat)
    | EnqPublish(v: nat, tail: nat)
    | DeqLoadHead
    | DeqLoadNum(head: nat)
    | DeqClaim(head: nat)
    | DeqRead(head: nat)
    | DeqClear(head: nat, v: nat)
    | DeqRelease(head: nat, v: nat)
    | Returning(res: Res)

  datatype Queue = Queue(n: nat, tail: nat, head: nat, nums: seq<nat>, data: seq<nat>, th: seq<Local>)

  datatype Event = Event(t: nat, op: Op)

  function New(n: nat, threads: nat): Queue {
    Queue(n, 0, 0, seq(n, i requires 0 <= i => i), seq(n, _ => 0), seq(threads, _ => Resting))
  }

  predicate Wf(q: Queue) {
    q.n > 0 && |q.nums| == q.n && |q.data| == q.n
  }

  function Goto(q: Queue, t: nat, l: Local): Queue
    requires t < |q.th|
  {
    q.(th := q.th[t := l])
  }

  function Num(q: Queue, p: nat): nat
    requires Wf(q)
  {
    q.nums[Slot(p, q.n)]
  }

  function Data(q: Queue, p: nat): nat
    requires Wf(q)
  {
    q.data[Slot(p, q.n)]
  }

  function SetNum(q: Queue, p: nat, num: nat): Queue
    requires Wf(q)
  {
    q.(nums := q.nums[Slot(p, q.n) := num])
  }

  function SetData(q: Queue, p: nat, v: nat): Queue
    requires Wf(q)
  {
    q.(data := q.data[Slot(p, q.n) := v])
  }

  function Begin(op: Op): Local {
    match op
    case Enq(v) => EnqLoadTail(v)
    case Deq => DeqLoadHead
  }

  function Step(q: Queue, e: Event): (r: Queue)
    requires Wf(q)
    ensures Wf(r) && r.n == q.n && |r.th| == |q.th|
  {
    if e.t >= |q.th| then q else
    match q.th[e.t]
    case Resting => Goto(q, e.t, Begin(e.op))
    case EnqLoadTail(v) => Goto(q, e.t, EnqLoadNum(v, q.tail))
    case EnqLoadNum(v, tail) =>
      Goto(q, e.t,
        if Num(q, tail) == tail then EnqClaim(v, tail)
        else if Num(q, tail) < tail then Returning(Fifo.WouldBlock)
        else EnqLoadTail(v))
    case EnqClaim(v, tail) =>
      if q.tail == tail then Goto(q, e.t, EnqWrite(v, tail)).(tail := tail + 1) else Goto(q, e.t, EnqLoadTail(v))
    case EnqWrite(v, tail) => SetData(Goto(q, e.t, EnqPublish(v, tail)), tail, v)
    case EnqPublish(_, tail) => SetNum(Goto(q, e.t, Returning(Fifo.Ok)), tail, tail + 1)
    case DeqLoadHead => Goto(q, e.t, DeqLoadNum(q.head))
    case DeqLoadNum(head) =>
      Goto(q, e.t,
        if Num(q, head) == head + 1 then DeqClaim(head)
        else if Num(q, head) < head + 1 then Returning(Fifo.WouldBlock)
        else DeqLoadHead)
    case DeqClaim(head) =>
      if q.head == head then Goto(q, e.t, DeqRead(head)).(head := head + 1) else Goto(q, e.t, DeqLoadHead)
    case DeqRead(head) => Goto(q, e.t, DeqClear(head, Data(q, head)))
    case DeqClear(head, v) => SetData(Goto(q, e.t, DeqRelease(head, v)), head, 0)
    case DeqRelease(head, v) => SetNum(Goto(q, e.t, Returning(Fifo.Got(v))), head, head + q.n)
    case Returning(_) => Goto(q, e.t, Resting)
  }

  function Shown(q: Queue, e: Event): seq<Fifo.Action<nat>> {
    if e.t >= |q.th| then []
    else if q.th[e.t].Resting? then [Fifo.Call(e.t, e.op)]
    else if q.th[e.t].Returning? then [Fifo.Return(e.t, q.th[e.t].res)]
    else []
  }

  function Exec(q: Queue, sched: seq<Event>): (r: Queue)
    requires Wf(q)
    ensures Wf(r) && r.n == q.n && |r.th| == |q.th|
    decreases sched
  {
    if sched == [] then q else Exec(Step(q, sched[0]), sched[1..])
  }

  function Trace(q: Queue, sched: seq<Event>): seq<Fifo.Action<nat>>
    requires Wf(q)
    decreases sched
  {
    if sched == [] then [] else Shown(q, sched[0]) + Trace(Step(q, sched[0]), sched[1..])
  }

  // History: what happened, never read by Step

  /** Values, producers and consumers by position, and what was returned at each position. */
  datatype Log = Log(vals: seq<nat>, prod: seq<nat>, cons: seq<nat>, got: map<nat, nat>)

  datatype Run = Run(q: Queue, log: Log)

  function Start(n: nat, threads: nat): Run {
    Run(New(n, threads), Log([], [], [], map[]))
  }

  function Record(m: Run, e: Event): Log {
    if e.t >= |m.q.th| then m.log else
    match m.q.th[e.t]
    case EnqClaim(v, tail) =>
      if m.q.tail == tail then m.log.(vals := m.log.vals + [v], prod := m.log.prod + [e.t]) else m.log
    case DeqClaim(head) => if m.q.head == head then m.log.(cons := m.log.cons + [e.t]) else m.log
    case DeqRelease(head, v) => m.log.(got := m.log.got[head := v])
    case _ => m.log
  }

  function Next(m: Run, e: Event): (r: Run)
    requires Wf(m.q)
    ensures Wf(r.q)
  {
    Run(Step(m.q, e), Record(m, e))
  }

  function Final(m: Run, sched: seq<Event>): (r: Run)
    requires Wf(m.q)
    ensures r.q == Exec(m.q, sched)
    decreases sched
  {
    if sched == [] then m else Final(Next(m, sched[0]), sched[1..])
  }
}
