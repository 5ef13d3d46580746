/**
 MPSCCompactIndirect: the queue of mpsc_compact.go.  Producers help each other advance
 `tail` as in the multi-consumer queue; the single consumer writes slots and `head` itself.
 */
module MPSCCompact {
  import opened Ring
  import opened CompactRing
  import Fifo = BoundedFifo

  type Res = Fifo.Res<nat>

  datatype Producer =
    | Resting
    | LoadTail(v: nat)
    | LoadHead(v: nat, tail: nat)
    | Fill(v: nat, tail: nat)
    | Advance(v: nat, tail: nat)
    | Help(v: nat, tail: nat)
    | Returning(res: Res)

  datatype Consumer =
    | Away
    | ReadHead
    | ReadTail(head: nat)
    | Load(head: nat)
    | Store(head: nat, v: nat)
    | Move(head: nat, v: nat)
    | Leaving(res: Res)

  datatype Queue = Queue(n: nat, head: nat, tail: nat, buf: seq<Word>, th: seq<Producer>, con: Consumer)

  /** Producer `t` moves (a resting one starts Enqueue(v)), or the consumer does. */
  datatype Event = Producing(t: nat, v: nat) | Consuming

  function New(n: nat, producers: nat): Queue {
    Queue(n, 0, 0, NewBuffer(n), seq(producers, _ => Resting), Away)
  }

  predicate Wf(q: Queue) {
    q.n > 0 && |q.buf| == q.n
  }

  function Goto(q: Queue, t: nat, l: Producer): Queue
    requires t < |q.th|
  {
    q.(th := q.th[t := l])
  }

  function CasTail(q: Queue, old': nat): Queue {
    if q.tail == old' then q.(tail := old' + 1) else q
  }

  function Produce(q: Queue, t: nat, v: nat): (r: Queue)
    requires Wf(q) && t < |q.th|
    ensures Wf(r) && r.n == q.n && |r.th| == |q.th|
  {
    match q.th[t]
    case Resting => Goto(q, t, LoadTail(v))
    case LoadTail(v) => Goto(q, t, LoadHead(v, q.tail))
    case LoadHead(v, tail) => Goto(q, t, if tail >= q.head + q.n then Returning(Fifo.WouldBlock) else Fill(v, tail))
    case Fill(v, tail) =>
      var j := Slot(tail, q.n);
      if q.buf[j] == Empty(Round(tail, q.n)) then
        Goto(q, t, Advance(v, tail)).(buf := q.buf[j := Value(v)])
      else Goto(q, t, Help(v, tail))
    case Advance(v, tail) => CasTail(Goto(q, t, Returning(Fifo.Ok)), tail)
    case Help(v, tail) => CasTail(Goto(q, t, LoadTail(v)), tail)
    case Returning(_) => Goto(q, t, Resting)
  }

  function Consume(q: Queue): (r: Queue)
    requires Wf(q)
    ensures Wf(r) && r.n == q.n && r.th == q.th
  {
    match q.con
    case Away => q.(con := ReadHead)
    case ReadHead => q.(con := ReadTail(q.head))
    case ReadTail(head) => q.(con := if head >= q.tail then Leaving(Fifo.WouldBlock) else Load(head))
    case Load(head) =>
      var w := q.buf[Slot(head, q.n)];
      q.(con := if w.Empty? then Leaving(Fifo.WouldBlock) else Store(head, w.v))
    case Store(head, v) =>
      q.(con := Move(head, v), buf := q.buf[Slot(head, q.n) := Empty(Round(head, q.n) + 1)])
    case Move(head, v) => q.(con := Leaving(Fifo.Got(v)), head := head + 1)
    case Leaving(_) => q.(con := Away)
  }

  function Step(q: Queue, e: Event): (r: Queue)
    requires Wf(q)
    ensures Wf(r) && r.n == q.n && |r.th| == |q.th|
  {
    match e
    case Producing(t, v) => if t < |q.th| then Produce(q, t, v) else q
    case Consuming => Consume(q)
  }

  /** The calls and returns a step shows; the consumer is the thread after the producers. */
  function Shown(q: Queue, e: Event): seq<Fifo.Action<nat>> {
    match e
    case Producing(t, v) =>
      if t >= |q.th| then []
      else if q.th[t].Resting? then [Fifo.Call(t, Fifo.Enq(v))]
      else if q.th[t].Returning? then [Fifo.Return(t, q.th[t].res)]
      else []
    case Consuming =>
      if q.con.Away? then [Fifo.Call(|q.th|, Fifo.Deq)]
      else if q.con.Leaving? then [Fifo.Return(|q.th|, q.con.res)]
      else []
  }

  function Trace(q: Queue, sched: seq<Event>): seq<Fifo.Action<nat>>
    requires Wf(q)
    decreases sched
  {
    if sched == [] then [] else Shown(q, sched[0]) + Trace(Step(q, sched[0]), sched[1..])
  }

  // History: what happened, never read by Step

  /** Values and producers by position, the number of taken positions, and the abstract queue. */
  datatype Log = Log(vals: seq<nat>, prod: seq<nat>, taken: nat, obj: Fifo.Atomic<nat>)

  datatype Run = Run(q: Queue, log: Log)

  function Start(n: nat, producers: nat): Run {
    Run(New(n, producers), Log([], [], 0, Fifo.New(n, producers + 1)))
  }

  /** The action of the abstract queue that a step performs, possibly for another producer. */
  function Meaning(m: Run, e: Event): Fifo.Action<nat> {
    var q := m.q;
    match e
    case Producing(t, v) =>
      if t >= |q.th| then Fifo.Tau else
      (match q.th[t]
       case Resting => Fifo.Call(t, Fifo.Enq(v))
       case LoadHead(_, tail) => if tail >= q.head + q.n then Fifo.Refuse(t) else Fifo.Tau
       case Advance(_, tail) => if q.tail == tail < |m.log.prod| then Fifo.Effect(m.log.prod[tail]) else Fifo.Tau
       case Help(_, tail) => if q.tail == tail < |m.log.prod| then Fifo.Effect(m.log.prod[tail]) else Fifo.Tau
       case Returning(res) => Fifo.Return(t, res)
       case _ => Fifo.Tau)
    case Consuming =>
      match q.con
      case Away => Fifo.Call(|q.th|, Fifo.Deq)
      case ReadTail(head) => if head >= q.tail then Fifo.Refuse(|q.th|) else Fifo.Tau
      case Move(_, _) => Fifo.Effect(|q.th|)
      case Leaving(res) => Fifo.Return(|q.th|, res)
      case _ => Fifo.Tau
  }

  function Observe(o: Fifo.Atomic<nat>, a: Fifo.Action<nat>): Fifo.Atomic<nat> {
    if Fifo.Enabled(o, a) then Fifo.Apply(o, a) else o
  }

  function Record(m: Run, e: Event): Log
    requires Wf(m.q)
  {
    var log := m.log.(obj := Observe(m.log.obj, Meaning(m, e)));
    match e
    case Producing(t, _) =>
      if t < |m.q.th| && m.q.th[t].Fill? && Produce(m.q, t, 0).th[t].Advance? then
        log.(vals := log.vals + [m.q.th[t].v], prod := log.prod + [t])
      else log
    case Consuming => if m.q.con.Store? then log.(taken := log.taken + 1) else log
  }

  function Next(m: Run, e: Event): (r: Run)
    requires Wf(m.q)
    ensures Wf(r.q)
  {
    Run(Step(m.q, e), Record(m, e))
  }

  function Final(m: Run, sched: seq<Event>): (r: Run)
    requires Wf(m.q)
    ensures Wf(r.q) && r.q.n == m.q.n && |r.q.th| == |m.q.th|
    decreases sched
  {
    if sched == [] then m else Final(Next(m, sched[0]), sched[1..])
  }

  function Meanings(m: Run, sched: seq<Event>): seq<Fifo.Action<nat>>
    requires Wf(m.q)
    decreases sched
  {
    if sched == [] then [] else [Meaning(m, sched[0])] + Meanings(Next(m, sched[0]), sched[1..])
  }
}
