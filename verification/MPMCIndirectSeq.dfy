/**
 MPMCIndirectSeq: the queue of mpmc_128_seq.go.  The CAS on the 128-bit slot entry comes
 first and the CAS on the index second, so an index can lag behind the slots.
 */
module MPMCIndirectSeq {
  import opened Ring
  import Fifo = BoundedFifo

  type Op = Fifo.Op<nat>
  type Res = Fifo.Res<nat>

  /** lo = sequence, hi = value */
  datatype Entry = Entry(num: nat, val: nat)

  datatype Local =
    | Resting
    | EnqLoadTail(v: nat)
    | EnqLoadSlot(v: nat, tail: nat)
    | EnqFill(v: nat, tail: nat, val: nat)
    | EnqAdvance(tail: nat)
    | DeqLoadHead
    | DeqLoadSlot(head: nat)
    | DeqTake(head: nat, val: nat)
    | DeqAdvance(head: nat, v: nat)
    | Returning(res: Res)

  datatype Queue = Queue(n: nat, tail: nat, head: nat, slots: seq<Entry>, th: seq<Local>)

  datatype Event = Event(t: nat, op: Op)

  function New(n: nat, threads: nat): Queue {
    Queue(n, 0, 0, seq(n, i requires 0 <= i => Entry(i, 0)), seq(threads, _ => Resting))
  }

  predicate Wf(q: Queue) {
    q.n > 0 && |q.slots| == q.n
  }

  function Goto(q: Queue, t: nat, l: Local): Queue
    requires t < |q.th|
  {
    q.(th := q.th[t := l])
  }

  function At(q: Queue, p: nat): Entry
    requires Wf(q)
  {
    q.slots[Slot(p, q.n)]
  }

  function Put(q: Queue, p: nat, e: Entry): Queue
    requires Wf(q)
  {
    q.(slots := q.slots[Slot(p, q.n) := e])
  }

  function Begin(op: Op): Local {
    match op
    case Enq(v) => EnqLoadTail(v)
    case Deq => DeqLoadHead
  }

  function Step(q: Queue, e: Event): (r: Queue)
    requires Wf(q)
    ensures Wf(r) && r.n == q.n && |r.th| == |q.th|
  {
    if e.t >= |q.th| then q else
    match q.th[e.t]
    case Resting => Goto(q, e.t, Begin(e.op))
    case EnqLoadTail(v) => Goto(q, e.t, EnqLoadSlot(v, q.tail))
    case EnqLoadSlot(v, tail) =>
      var Entry(s, val) := At(q, tail);
      Goto(q, e.t,
        if s == tail then EnqFill(v, tail, val)
        else if s < tail then Returning(Fifo.WouldBlock)
        else EnqLoadTail(v))
    case EnqFill(v, tail, val) =>
      if At(q, tail) == Entry(tail, val) then Put(Goto(q, e.t, EnqAdvance(tail)), tail, Entry(tail + 1, v))
      else Goto(q, e.t, EnqLoadTail(v))
    case EnqAdvance(tail) =>
      Goto(q, e.t, Returning(Fifo.Ok)).(tail := if q.tail == tail then tail + 1 else q.tail)
    case DeqLoadHead => Goto(q, e.t, DeqLoadSlot(q.head))
    case DeqLoadSlot(head) =>
      var Entry(s, val) := At(q, head);
      Goto(q, e.t,
        if s == head + 1 then DeqTake(head, val)
        else if s < head + 1 then Returning(Fifo.WouldBlock)
        else DeqLoadHead)
    case DeqTake(head, val) =>
      if At(q, head) == Entry(head + 1, val) then Put(Goto(q, e.t, DeqAdvance(head, val)), head, Entry(head + q.n, 0))
      else Goto(q, e.t, DeqLoadHead)
    case DeqAdvance(head, v) =>
      Goto(q, e.t, Returning(Fifo.Got(v))).(head := if q.head == head then head + 1 else q.head)
    case Returning(_) => Goto(q, e.t, Resting)
  }

  function Shown(q: Queue, e: Event): seq<Fifo.Action<nat>> {
    if e.t >= |q.th| then []
    else if q.th[e.t].Resting? then [Fifo.Call(e.t, e.op)]
    else if q.th[e.t].Returning? then [Fifo.Return(e.t, q.th[e.t].res)]
    else []
  }

  function Trace(q: Queue, sched: seq<Event>): seq<Fifo.Action<nat>>
    requires Wf(q)
    decreases sched
  {
    if sched == [] then [] else Shown(q, sched[0]) + Trace(Step(q, sched[0]), sched[1..])
  }

  // History: what happened, never read by Step

  /** Values and producers by position, consumers by position, and the abstract queue. */
  datatype Log = Log(vals: seq<nat>, prod: seq<nat>, cons: seq<nat>, obj: Fifo.Atomic<nat>)

  datatype Run = Run(q: Queue, log: Log)

  function Start(n: nat, threads: nat): Run {
    Run(New(n, threads), Log([], [], [], Fifo.New(n, threads)))
  }

  /** Operations take effect at the slot CAS and are refused at the slot load. */
  function Meaning(q: Queue, e: Event): Fifo.Action<nat>
    requires Wf(q)
  {
    if e.t >= |q.th| then Fifo.Tau else
    match q.th[e.t]
    case Resting => Fifo.Call(e.t, e.op)
    case EnqLoadSlot(_, tail) => if At(q, tail).num < tail then Fifo.Refuse(e.t) else Fifo.Tau
    case EnqFill(_, tail, val) => if At(q, tail) == Entry(tail, val) then Fifo.Effect(e.t) else Fifo.Tau
    case DeqLoadSlot(head) => if At(q, head).num < head + 1 then Fifo.Refuse(e.t) else Fifo.Tau
    case DeqTake(head, val) => if At(q, head) == Entry(head + 1, val) then Fifo.Effect(e.t) else Fifo.Tau
    case Returning(res) => Fifo.Return(e.t, res)
    case _ => Fifo.Tau
  }

  function Observe(o: Fifo.Atomic<nat>, a: Fifo.Action<nat>): Fifo.Atomic<nat> {
    if Fifo.Enabled(o, a) then Fifo.Apply(o, a) else o
  }

  function Record(m: Run, e: Event): Log
    requires Wf(m.q)
  {
    var a := Meaning(m.q, e);
    var log := m.log.(obj := Observe(m.log.obj, a));
    if !a.Effect? then log
    else if m.q.th[e.t].EnqFill? then log.(vals := log.vals + [m.q.th[e.t].v], prod := log.prod + [e.t])
    else log.(cons := log.cons + [e.t])
  }

  function Next(m: Run, e: Event): (r: Run)
    requires Wf(m.q)
    ensures Wf(r.q)
  {
    Run(Step(m.q, e), Record(m, e))
  }

  function Final(m: Run, sched: seq<Event>): (r: Run)
    requires Wf(m.q)
    ensures Wf(r.q) && r.q.n == m.q.n && |r.q.th| == |m.q.th|
    decreases sched
  {
    if sched == [] then m else Final(Next(m, sched[0]), sched[1..])
  }

  function Meanings(m: Run, sched: seq<Event>): seq<Fifo.Action<nat>>
    requires Wf(m.q)
    decreases sched
  {
    if sched == [] then [] else [Meaning(m.q, sched[0])] + Meanings(Next(m, sched[0]), sched[1..])
  }
}
