/**
 MPSC: the queue of mpsc.go.  Producers test for room, then claim a position blindly by
 fetch-and-add; one consumer takes positions in order.  A slot's tag and its data are
 separate memory, so reading, clearing and writing data are steps of their own.
 */
module MPSC {
  import opened Ring
  import opened TwoLap
  import Fifo = BoundedFifo

  type Res = Fifo.Res<nat>

  datatype Producer =
    | Resting
    | LoadTail(v: nat)
    | LoadHead(v: nat, tail: nat)
    | Claim(v: nat)
    | LoadTag(v: nat, my: nat)
    | Write(v: nat, my: nat)
    | Publish(v: nat, my: nat)
    | Returning(res: Res)

  datatype Consumer =
    | Away
    | ReadHead
    | ReadTag(head: nat)
    | Read(head: nat)
    | Clear(head: nat, v: nat)
    | Release(head: nat, v: nat)
    | Advance(head: nat, v: nat)
    | Leaving(res: Res)

  datatype Queue = Queue(
    n: nat, head: nat, tail: nat, tags: seq<nat>, data: seq<nat>, th: seq<Producer>, con: Consumer)

  /** Producer `t` moves (a resting one starts Enqueue(v)), or the consumer does. */
  datatype Event = Producing(t: nat, v: nat) | Consuming

  function New(n: nat, producers: nat): Queue
    requires n > 0
  {
    Queue(n, 0, 0, seq(2 * n, i requires 0 <= i => Cycle(i, n)), seq(2 * n, _ => 0), seq(producers, _ => Resting), Away)
  }

  predicate Wf(q: Queue) {
    q.n > 0 && |q.tags| == 2 * q.n && |q.data| == 2 * q.n
  }

  function Goto(q: Queue, t: nat, l: Producer): Queue
    requires t < |q.th|
  {
    q.(th := q.th[t := l])
  }

  function Produce(q: Queue, t: nat, v: nat): (r: Queue)
    requires Wf(q) && t < |q.th|
    ensures Wf(r) && r.n == q.n && |r.th| == |q.th|
  {
    match q.th[t]
    case Resting => Goto(q, t, LoadTail(v))
    case LoadTail(v) => Goto(q, t, LoadHead(v, q.tail))
    case LoadHead(v, tail) => Goto(q, t, if tail >= q.head + q.n then Returning(Fifo.WouldBlock) else Claim(v))
    case Claim(v) => Goto(q, t, LoadTag(v, q.tail)).(tail := q.tail + 1)
    case LoadTag(v, my) =>
      var c := q.tags[Place(my, q.n)];
      Goto(q, t,
        if c == Cycle(my, q.n) then Write(v, my)
        else if c < Cycle(my, q.n) then Returning(Fifo.WouldBlock)
        else LoadTail(v))
    case Write(v, my) => Goto(q, t, Publish(v, my)).(data := q.data[Place(my, q.n) := v])
    case Publish(v, my) => Goto(q, t, Returning(Fifo.Ok)).(tags := q.tags[Place(my, q.n) := Cycle(my, q.n) + 1])
    case Returning(_) => Goto(q, t, Resting)
  }

  function Consume(q: Queue): (r: Queue)
    requires Wf(q)
    ensures Wf(r) && r.n == q.n && r.th == q.th
  {
    match q.con
    case Away => q.(con := ReadHead)
    case ReadHead => q.(con := ReadTag(q.head))
    case ReadTag(head) =>
      q.(con := if q.tags[Place(head, q.n)] != Cycle(head, q.n) + 1 then Leaving(Fifo.WouldBlock) else Read(head))
    case Read(head) => q.(con := Clear(head, q.data[Place(head, q.n)]))
    case Clear(head, v) => q.(con := Release(head, v), data := q.data[Place(head, q.n) := 0])
    case Release(head, v) =>
      q.(con := Advance(head, v), tags := q.tags[Place(head, q.n) := Cycle(head + 2 * q.n, q.n)])
    case Advance(head, v) => q.(con := Leaving(Fifo.Got(v)), head := head + 1)
    case Leaving(_) => q.(con := Away)
  }

  function Step(q: Queue, e: Event): (r: Queue)
    requires Wf(q)
    ensures Wf(r) && r.n == q.n && |r.th| == |q.th|
  {
    match e
    case Producing(t, v) => if t < |q.th| then Produce(q, t, v) else q
    case Consuming => Consume(q)
  }

  function Exec(q: Queue, sched: seq<Event>): (r: Queue)
    requires Wf(q)
    ensures Wf(r) && r.n == q.n && |r.th| == |q.th|
    decreases sched
  {
    if sched == [] then q else Exec(Step(q, sched[0]), sched[1..])
  }

  /** The calls and returns a step shows; the consumer is the thread after the producers. */
  function Shown(q: Queue, e: Event): seq<Fifo.Action<nat>> {
    match e
    case Producing(t, v) =>
      if t >= |q.th| then []
      else if q.th[t].Resting? then [Fifo.Call(t, Fifo.Enq(v))]
      else if q.th[t].Returning? then [Fifo.Return(t, q.th[t].res)]
      else []
    case Consuming =>
      if q.con.Away? then [Fifo.Call(|q.th|, Fifo.Deq)]
      else if q.con.Leaving? then [Fifo.Return(|q.th|, q.con.res)]
      else []
  }

  function Trace(q: Queue, sched: seq<Event>): seq<Fifo.Action<nat>>
    requires Wf(q)
    decreases sched
  {
    if sched == [] then [] else Shown(q, sched[0]) + Trace(Step(q, sched[0]), sched[1..])
  }

  // History: what happened, never read by Step

  /**
   `prod[p]` and `vals[p]` are who claimed position `p` and for which value, `out` the
   values the consumer has taken, `stored` the positions whose Enqueue has published.
   */
  datatype Log = Log(prod: seq<nat>, vals: seq<nat>, stored: set<nat>, out: seq<nat>)

  datatype Run = Run(q: Queue, log: Log)

  function Start(n: nat, producers: nat): Run
    requires n > 0
  {
    Run(New(n, producers), Log([], [], {}, []))
  }

  function Record(m: Run, e: Event): Log {
    var q, log := m.q, m.log;
    match e
    case Producing(t, _) =>
      if t >= |q.th| then log
      else if q.th[t].Claim? then log.(prod := log.prod + [t], vals := log.vals + [q.th[t].v])
      else if q.th[t].Publish? then log.(stored := log.stored + {q.th[t].my})
      else log
    case Consuming => if q.con.Release? then log.(out := log.out + [q.con.v]) else log
  }

  function Next(m: Run, e: Event): (r: Run)
    requires Wf(m.q)
    ensures Wf(r.q)
  {
    Run(Step(m.q, e), Record(m, e))
  }

  function Final(m: Run, sched: seq<Event>): (r: Run)
    requires Wf(m.q)
    ensures r.q == Exec(m.q, sched)
    decreases sched
  {
    if sched == [] then m else Final(Next(m, sched[0]), sched[1..])
  }
}
