/**
 MPMCCompactIndirect: the helping protocol of mpmc_compact.go.

 `Queue` is the shared memory plus one program counter with locals per thread.  `Step` is
 one atomic access of one thread, with the local computation up to the next one.  Any thread
 may advance `tail` or `head` on behalf of another, so an operation can take effect in a
 step of a helper.
 */
module MPMCCompact {
  import opened Ring
  import opened CompactRing
  import Fifo = BoundedFifo

  type Op = Fifo.Op<nat>
  type Res = Fifo.Res<nat>

  /** Where a thread stands: the name is the atomic access it performs next. */
  datatype Local =
    | Resting
    | EnqLoadTail(v: nat)
    | EnqLoadHead(v: nat, tail: nat)
    | EnqRecheck(v: nat, tail: nat, head: nat)
    | EnqFill(v: nat, tail: nat)
    | EnqAdvance(v: nat, tail: nat)
    | EnqHelp(v: nat, tail: nat)
    | DeqLoadHead
    | DeqLoadTail(head: nat)
    | DeqLoadSlot(head: nat, tail: nat)
    | DeqRecheck(head: nat, tail: nat, w: Word)
    | DeqTake(head: nat, v: nat)
    | DeqAdvance(head: nat, v: nat)
    | DeqHelp(head: nat)
    | Returning(res: Res)

  datatype Queue = Queue(n: nat, tail: nat, head: nat, buf: seq<Word>, th: seq<Local>)

  /** Thread `t` moves; a resting thread starts `op`. */
  datatype Event = Event(t: nat, op: Op)

  function New(n: nat, threads: nat): Queue {
    Queue(n, 0, 0, NewBuffer(n), seq(threads, _ => Resting))
  }

  predicate Wf(q: Queue) {
    q.n > 0 && |q.buf| == q.n
  }

  function Begin(op: Op): Local {
    match op
    case Enq(v) => EnqLoadTail(v)
    case Deq => DeqLoadHead
  }

  function Goto(q: Queue, t: nat, l: Local): Queue
    requires t < |q.th|
  {
    q.(th := q.th[t := l])
  }

  function CasTail(q: Queue, old': nat): Queue {
    if q.tail == old' then q.(tail := old' + 1) else q
  }

  function CasHead(q: Queue, old': nat): Queue {
    if q.head == old' then q.(head := old' + 1) else q
  }

  function Step(q: Queue, e: Event): (r: Queue)
    requires Wf(q)
    ensures Wf(r) && r.n == q.n && |r.th| == |q.th|
  {
    if e.t >= |q.th| then q else
    match q.th[e.t]
    case Resting => Goto(q, e.t, Begin(e.op))
    case EnqLoadTail(v) => Goto(q, e.t, EnqLoadHead(v, q.tail))
    case EnqLoadHead(v, tail) => Goto(q, e.t, EnqRecheck(v, tail, q.head))
    case EnqRecheck(v, tail, head) =>
      if tail != q.tail then Goto(q, e.t, EnqLoadTail(v))
      else if tail >= head + q.n then Goto(q, e.t, Returning(Fifo.WouldBlock))
      else Goto(q, e.t, EnqFill(v, tail))
    case EnqFill(v, tail) =>
      var j := Slot(tail, q.n);
      if q.buf[j] == Empty(Round(tail, q.n)) then
        Goto(q, e.t, EnqAdvance(v, tail)).(buf := q.buf[j := Value(v)])
      else Goto(q, e.t, EnqHelp(v, tail))
    case EnqAdvance(v, tail) => CasTail(Goto(q, e.t, Returning(Fifo.Ok)), tail)
    case EnqHelp(v, tail) => CasTail(Goto(q, e.t, EnqLoadTail(v)), tail)
    case DeqLoadHead => Goto(q, e.t, DeqLoadTail(q.head))
    case DeqLoadTail(head) => Goto(q, e.t, DeqLoadSlot(head, q.tail))
    case DeqLoadSlot(head, tail) => Goto(q, e.t, DeqRecheck(head, tail, q.buf[Slot(head, q.n)]))
    case DeqRecheck(head, tail, w) =>
      if head != q.head then Goto(q, e.t, DeqLoadHead)
      else if head >= tail then Goto(q, e.t, Returning(Fifo.WouldBlock))
      else if w == Empty(Round(head, q.n) + 1) then Goto(q, e.t, DeqHelp(head))
      else if w.Empty? then Goto(q, e.t, DeqHelp(head))
      else Goto(q, e.t, DeqTake(head, w.v))
    case DeqTake(head, v) =>
      var j := Slot(head, q.n);
      if q.buf[j] == Value(v) then
        Goto(q, e.t, DeqAdvance(head, v)).(buf := q.buf[j := Empty(Round(head, q.n) + 1)])
      else Goto(q, e.t, DeqHelp(head))
    case DeqAdvance(head, v) => CasHead(Goto(q, e.t, Returning(Fifo.Got(v))), head)
    case DeqHelp(head) => CasHead(Goto(q, e.t, DeqLoadHead), head)
    case Returning(_) => Goto(q, e.t, Resting)
  }

  /** The calls and returns a step shows. */
  function Shown(q: Queue, e: Event): seq<Fifo.Action<nat>> {
    if e.t >= |q.th| then []
    else if q.th[e.t].Resting? then [Fifo.Call(e.t, e.op)]
    else if q.th[e.t].Returning? then [Fifo.Return(e.t, q.th[e.t].res)]
    else []
  }

  function Exec(q: Queue, sched: seq<Event>): (r: Queue)
    requires Wf(q)
    ensures Wf(r) && r.n == q.n && |r.th| == |q.th|
    decreases sched
  {
    if sched == [] then q else Exec(Step(q, sched[0]), sched[1..])
  }

  /** Everything the environment sees of a run. */
  function Trace(q: Queue, sched: seq<Event>): seq<Fifo.Action<nat>>
    requires Wf(q)
    decreases sched
  {
    if sched == [] then [] else Shown(q, sched[0]) + Trace(Step(q, sched[0]), sched[1..])
  }

  // The caller's obligation

  /** Thread `t` is about to store `v` in the slot of its loaded tail. */
  predicate Fills(q: Queue, t: nat)
    requires Wf(q)
  {
    t < |q.th| && q.th[t].EnqFill? && q.buf[Slot(q.th[t].tail, q.n)] == Empty(Round(q.th[t].tail, q.n))
  }

  /**
   The value CAS of Dequeue compares bare values.  A step respects the obligation when the
   value it stores is not one that a consumer, between confirming `head` and its CAS, still
   expects in that very slot.
   */
  predicate Fresh(q: Queue, e: Event)
    requires Wf(q)
  {
    Fills(q, e.t) ==>
      forall i :: 0 <= i < |q.th| && q.th[i].DeqTake? && Slot(q.th[i].head, q.n) == Slot(q.th[e.t].tail, q.n)
        ==> q.th[i].v != q.th[e.t].v
  }

  predicate FreshRun(q: Queue, sched: seq<Event>)
    requires Wf(q)
    decreases sched
  {
    sched == [] || (Fresh(q, sched[0]) && FreshRun(Step(q, sched[0]), sched[1..]))
  }

  // History: what happened, never read by Step

  /**
   `vals[p]` and `prod[p]` are the value and producer of position `p`, `cons[p]` its
   consumer.  `base[t]` and `trips[t]` are, for the running call of `t`, the index it
   started from and how often it went round its loop again.
   */
  datatype Log = Log(
    vals: seq<nat>, prod: seq<nat>, cons: seq<nat>,
    base: seq<nat>, trips: seq<nat>,
    w: Fifo.Watched<nat>)

  datatype Run = Run(q: Queue, log: Log)

  function Start(n: nat, threads: nat): Run {
    Run(New(n, threads),
        Log([], [], [], seq(threads, _ => 0), seq(threads, _ => 0), Fifo.Watched(Fifo.New(n, threads), {})))
  }

  /** The action of the abstract queue that a step performs, possibly for another thread. */
  function Meaning(m: Run, e: Event): Fifo.Action<nat> {
    var q := m.q;
    if e.t >= |q.th| then Fifo.Tau else
    match q.th[e.t]
    case Resting => Fifo.Call(e.t, e.op)
    case EnqLoadHead(v, tail) => if tail >= q.head + q.n then Fifo.Refuse(e.t) else Fifo.Tau
    case EnqAdvance(_, tail) => if q.tail == tail < |m.log.prod| then Fifo.Effect(m.log.prod[tail]) else Fifo.Tau
    case EnqHelp(_, tail) => if q.tail == tail < |m.log.prod| then Fifo.Effect(m.log.prod[tail]) else Fifo.Tau
    case DeqLoadTail(head) => if head >= q.tail then Fifo.Refuse(e.t) else Fifo.Tau
    case DeqAdvance(head, _) => if q.head == head < |m.log.cons| then Fifo.Effect(m.log.cons[head]) else Fifo.Tau
    case DeqHelp(head) => if q.head == head < |m.log.cons| then Fifo.Effect(m.log.cons[head]) else Fifo.Tau
    case Returning(res) => Fifo.Return(e.t, res)
    case _ => Fifo.Tau
  }

  predicate Enqueuing(l: Local) {
    l.EnqLoadTail? || l.EnqLoadHead? || l.EnqRecheck? || l.EnqFill? || l.EnqHelp?
  }

  predicate Dequeuing(l: Local) {
    l.DeqLoadHead? || l.DeqLoadTail? || l.DeqLoadSlot? || l.DeqRecheck? || l.DeqTake? || l.DeqHelp?
  }

  /** Moving from `l` to `l'` goes back to the top of the loop. */
  predicate LoopsAgain(l: Local, l': Local) {
    (Enqueuing(l) && l'.EnqLoadTail?) || (Dequeuing(l) && l'.DeqLoadHead?)
  }

  function Observe(w: Fifo.Watched<nat>, a: Fifo.Action<nat>): Fifo.Watched<nat> {
    if Fifo.WEnabled(w, a) then Fifo.WApply(w, a) else w
  }

  function OnceMore(log: Log, t: nat): Log
    requires t < |log.trips|
  {
    log.(trips := log.trips[t := log.trips[t] + 1])
  }

  /** The history after thread `e.t` moved to `l'`. */
  function Record(m: Run, e: Event, l': Local): Log
    requires e.t < |m.q.th|
  {
    var l, log := m.q.th[e.t], m.log.(w := Observe(m.log.w, Meaning(m, e)));
    if l.EnqFill? && l'.EnqAdvance? then
      log.(vals := log.vals + [l.v], prod := log.prod + [e.t])
    else if l.DeqTake? && l'.DeqAdvance? then
      log.(cons := log.cons + [e.t])
    else if e.t >= |log.base| || e.t >= |log.trips| then log
    else if l.Resting? then
      log.(base := log.base[e.t := if e.op.Enq? then m.q.tail else m.q.head], trips := log.trips[e.t := 0])
    else if LoopsAgain(l, l') then OnceMore(log, e.t)
    else log
  }

  function Next(m: Run, e: Event): Run
    requires Wf(m.q)
  {
    var q' := Step(m.q, e);
    if e.t >= |m.q.th| then Run(q', m.log) else Run(q', Record(m, e, q'.th[e.t]))
  }

  function Final(m: Run, sched: seq<Event>): (r: Run)
    requires Wf(m.q)
    ensures r.q == Exec(m.q, sched)
    decreases sched
  {
    if sched == [] then m else Final(Next(m, sched[0]), sched[1..])
  }

  function Meanings(m: Run, sched: seq<Event>): seq<Fifo.Action<nat>>
    requires Wf(m.q)
    decreases sched
  {
    if sched == [] then [] else [Meaning(m, sched[0])] + Meanings(Next(m, sched[0]), sched[1..])
  }
}
