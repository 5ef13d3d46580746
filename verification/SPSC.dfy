/**
 SPSC: the queue of spsc.go, Lamport's ring with cached indices.  One producer and one
 consumer share `head`, `tail` and the slots; `cachedHead` belongs to the producer and
 `cachedTail` to the consumer.  Every access to a shared variable is a step of its own.
 */
module SPSC {
  import opened Ring
  import Fifo = BoundedFifo

  type Res = Fifo.Res<nat>

  datatype Producer =
    | Resting
    | LoadTail(v: nat)
    | Refresh(v: nat, tail: nat)
    | Write(v: nat, tail: nat)
    | StoreTail(v: nat, tail: nat)
    | Returning(res: Res)

  datatype Consumer =
    | Away
    | LoadHead
    | Reload(head: nat)
    | Read(head: nat)
    | Clear(head: nat, v: nat)
    | StoreHead(head: nat, v: nat)
    | Leaving(res: Res)

  datatype Queue = Queue(
    n: nat, head: nat, cachedTail: nat, tail: nat, cachedHead: nat, buf: seq<nat>, prod: Producer, con: Consumer)

  /** The producer moves (a resting one starts Enqueue(v)), or the consumer does. */
  datatype Event = Producing(v: nat) | Consuming

  function New(n: nat): Queue {
    Queue(n, 0, 0, 0, 0, seq(n, _ => 0), Resting, Away)
  }

  predicate Wf(q: Queue) {
    q.n > 0 && |q.buf| == q.n
  }

  function Data(q: Queue, p: nat): nat
    requires Wf(q)
  {
    q.buf[Slot(p, q.n)]
  }

  function Put(q: Queue, p: nat, v: nat): Queue
    requires Wf(q)
  {
    q.(buf := q.buf[Slot(p, q.n) := v])
  }

  function Produce(q: Queue, v: nat): (r: Queue)
    requires Wf(q)
    ensures Wf(r) && r.n == q.n
  {
    match q.prod
    case Resting => q.(prod := LoadTail(v))
    case LoadTail(v) => q.(prod := if q.tail >= q.cachedHead + q.n then Refresh(v, q.tail) else Write(v, q.tail))
    case Refresh(v, tail) =>
      q.(cachedHead := q.head, prod := if tail >= q.head + q.n then Returning(Fifo.WouldBlock) else Write(v, tail))
    case Write(v, tail) => Put(q, tail, v).(prod := StoreTail(v, tail))
    case StoreTail(_, tail) => q.(tail := tail + 1, prod := Returning(Fifo.Ok))
    case Returning(_) => q.(prod := Resting)
  }

  function Consume(q: Queue): (r: Queue)
    requires Wf(q)
    ensures Wf(r) && r.n == q.n
  {
    match q.con
    case Away => q.(con := LoadHead)
    case LoadHead => q.(con := if q.head >= q.cachedTail then Reload(q.head) else Read(q.head))
    case Reload(head) =>
      q.(cachedTail := q.tail, con := if head >= q.tail then Leaving(Fifo.WouldBlock) else Read(head))
    case Read(head) => q.(con := Clear(head, Data(q, head)))
    case Clear(head, v) => Put(q, head, 0).(con := StoreHead(head, v))
    case StoreHead(head, v) => q.(head := head + 1, con := Leaving(Fifo.Got(v)))
    case Leaving(_) => q.(con := Away)
  }

  function Step(q: Queue, e: Event): (r: Queue)
    requires Wf(q)
    ensures Wf(r) && r.n == q.n
  {
    match e
    case Producing(v) => Produce(q, v)
    case Consuming => Consume(q)
  }

  /** The calls and returns a step shows; the producer is thread 0, the consumer thread 1. */
  function Shown(q: Queue, e: Event): seq<Fifo.Action<nat>> {
    match e
    case Producing(v) =>
      if q.prod.Resting? then [Fifo.Call(0, Fifo.Enq(v))]
      else if q.prod.Returning? then [Fifo.Return(0, q.prod.res)]
      else []
    case Consuming =>
      if q.con.Away? then [Fifo.Call(1, Fifo.Deq)]
      else if q.con.Leaving? then [Fifo.Return(1, q.con.res)]
      else []
  }

  function Exec(q: Queue, sched: seq<Event>): (r: Queue)
    requires Wf(q)
    ensures Wf(r) && r.n == q.n
    decreases sched
  {
    if sched == [] then q else Exec(Step(q, sched[0]), sched[1..])
  }

  function Trace(q: Queue, sched: seq<Event>): seq<Fifo.Action<nat>>
    requires Wf(q)
    decreases sched
  {
    if sched == [] then [] else Shown(q, sched[0]) + Trace(Step(q, sched[0]), sched[1..])
  }
}

/** SPSC is linearizable to a bounded FIFO, and its cached indices are sound. */
module SPSCProof {
  import opened Ring
  import opened SPSC
  import Fifo = BoundedFifo

  /** The values published so far, by position, and the abstract queue. */
  datatype Log = Log(vals: seq<nat>, obj: Fifo.Atomic<nat>)

  datatype Run = Run(q: Queue, log: Log)

  function Start(n: nat): Run {
    Run(New(n), Log([], Fifo.New(n, 2)))
  }

  /** Effects happen at the index stores, refusals at the refreshing loads. */
  function Meaning(q: Queue, e: Event): Fifo.Action<nat> {
    match e
    case Producing(v) =>
      (match q.prod
       case Resting => Fifo.Call(0, Fifo.Enq(v))
       case Refresh(_, tail) => if tail >= q.head + q.n then Fifo.Refuse(0) else Fifo.Tau
       case StoreTail(_, _) => Fifo.Effect(0)
       case Returning(res) => Fifo.Return(0, res)
       case _ => Fifo.Tau)
    case Consuming =>
      match q.con
      case Away => Fifo.Call(1, Fifo.Deq)
      case Reload(head) => if head >= q.tail then Fifo.Refuse(1) else Fifo.Tau
      case StoreHead(_, _) => Fifo.Effect(1)
      case Leaving(res) => Fifo.Return(1, res)
      case _ => Fifo.Tau
  }

  function Next(m: Run, e: Event): (r: Run)
    requires Wf(m.q)
    ensures Wf(r.q)
  {
    var a := Meaning(m.q, e);
    Run(
      Step(m.q, e),
      Log(
        if e.Producing? && m.q.prod.StoreTail? then m.log.vals + [m.q.prod.v] else m.log.vals,
        if Fifo.Enabled(m.log.obj, a) then Fifo.Apply(m.log.obj, a) else m.log.obj))
  }

  function Meanings(m: Run, sched: seq<Event>): seq<Fifo.Action<nat>>
    requires Wf(m.q)
    decreases sched
  {
    if sched == [] then [] else [Meaning(m.q, sched[0])] + Meanings(Next(m, sched[0]), sched[1..])
  }

  // The invariant

  ghost predicate Indices(q: Queue) {
    && Wf(q)
    && q.cachedHead <= q.head <= q.tail <= q.cachedHead + q.n
    && q.cachedTail <= q.tail
  }

  ghost predicate Abstract(q: Queue, log: Log)
    requires Indices(q)
  {
    && |log.vals| == q.tail
    && log.obj.cap == q.n && log.obj.queue == log.vals[q.head..q.tail]
    && |log.obj.status| == 2
  }

  /** Every published position is in its slot until the consumer clears it. */
  ghost predicate Stored(q: Queue, log: Log)
    requires Indices(q) && Abstract(q, log)
  {
    forall p :: q.head <= p < q.tail && !(q.con.StoreHead? && p == q.head) ==> Data(q, p) == log.vals[p]
  }

  /** Every other slot is cleared. */
  ghost predicate Free(q: Queue)
    requires Indices(q)
  {
    && (forall p :: q.tail <= p < q.head + q.n && !(q.prod.StoreTail? && p == q.tail) ==> q.buf[Slot(p, q.n)] == 0)
    && (q.con.StoreHead? ==> Data(q, q.head) == 0)
  }

  ghost predicate ProducerOk(q: Queue, log: Log)
    requires Indices(q) && Abstract(q, log)
  {
    var st := log.obj.status[0];
    match q.prod
    case Resting => st == Fifo.Idle
    case LoadTail(v) => st == Fifo.Pending(Fifo.Enq(v))
    case Refresh(v, tail) => st == Fifo.Pending(Fifo.Enq(v)) && tail == q.tail
    case Write(v, tail) => st == Fifo.Pending(Fifo.Enq(v)) && tail == q.tail < q.cachedHead + q.n
    case StoreTail(v, tail) =>
      st == Fifo.Pending(Fifo.Enq(v)) && tail == q.tail < q.cachedHead + q.n && Data(q, tail) == v
    case Returning(res) => st == Fifo.Done(res)
  }

  ghost predicate ConsumerOk(q: Queue, log: Log)
    requires Indices(q) && Abstract(q, log)
  {
    var st := log.obj.status[1];
    match q.con
    case Away => st == Fifo.Idle
    case LoadHead => st == Fifo.Pending(Fifo.Deq)
    case Reload(head) => st == Fifo.Pending(Fifo.Deq) && head == q.head
    case Read(head) => st == Fifo.Pending(Fifo.Deq) && head == q.head < q.cachedTail
    case Clear(head, v) => st == Fifo.Pending(Fifo.Deq) && head == q.head < q.cachedTail && v == log.vals[head]
    case StoreHead(head, v) => st == Fifo.Pending(Fifo.Deq) && head == q.head < q.cachedTail && v == log.vals[head]
    case Leaving(res) => st == Fifo.Done(res)
  }

  ghost predicate Inv(m: Run) {
    && Indices(m.q) && Abstract(m.q, m.log) && Stored(m.q, m.log) && Free(m.q)
    && ProducerOk(m.q, m.log) && ConsumerOk(m.q, m.log)
  }

  /** Every step is a step of the abstract queue; in particular a refusal is exact when it is decided. */
  lemma StepEnabled(m: Run, e: Event)
    requires Inv(m)
    ensures Fifo.Enabled(m.log.obj, Meaning(m.q, e))
  {
  }

  /** The data accesses of the two sides never meet in a slot. */
  lemma Separate(m: Run, p: nat)
    requires Inv(m) && m.q.head <= p < m.q.tail < m.q.head + m.q.n
    ensures Slot(p, m.q.n) != Slot(m.q.tail, m.q.n)
  {
    Apart(p, m.q.tail, m.q.n);
  }

  lemma Wrote(m: Run, m': Run)
    requires Inv(m) && m.q.prod.Write?
    requires var Write(v, tail) := m.q.prod; m' == m.(q := Put(m.q, tail, v).(prod := StoreTail(v, tail)))
    ensures Inv(m')
  {
    forall p | m.q.head <= p < m.q.head + m.q.n && p != m.q.tail
      ensures m'.q.buf[Slot(p, m.q.n)] == m.q.buf[Slot(p, m.q.n)]
    {
      Apart(p, m.q.tail, m.q.n);
    }
  }

  lemma Published(m: Run, e: Event)
    requires Inv(m) && e.Producing? && m.q.prod.StoreTail?
    ensures Inv(Next(m, e))
  {
    var q, vals := m.q, m.log.vals;
    assert (vals + [q.prod.v])[q.head..q.tail + 1] == vals[q.head..q.tail] + [q.prod.v];
  }

  lemma ProducerStep(m: Run, e: Event)
    requires Inv(m) && e.Producing?
    ensures Inv(Next(m, e))
  {
    StepEnabled(m, e);
    match m.q.prod {
      case Write(_, _) => Wrote(m, Next(m, e));
      case StoreTail(_, _) => Published(m, e);
      case _ =>
    }
  }

  lemma Cleared(m: Run, m': Run)
    requires Inv(m) && m.q.con.Clear?
    requires var Clear(head, v) := m.q.con; m' == m.(q := Put(m.q, head, 0).(con := StoreHead(head, v)))
    ensures Inv(m')
  {
    forall p | m.q.head < p < m.q.head + m.q.n
      ensures m'.q.buf[Slot(p, m.q.n)] == m.q.buf[Slot(p, m.q.n)]
    {
      Apart(m.q.head, p, m.q.n);
    }
  }

  lemma Advanced(m: Run)
    requires Inv(m) && m.q.con.StoreHead?
    ensures Inv(Next(m, Consuming))
  {
    var q, vals := m.q, m.log.vals;
    assert vals[q.head..q.tail][1..] == vals[q.head + 1..q.tail];
    assert Data(q, q.head + q.n) == Data(q, q.head);
  }

  lemma ConsumerStep(m: Run)
    requires Inv(m)
    ensures Inv(Next(m, Consuming))
  {
    StepEnabled(m, Consuming);
    match m.q.con {
      case Clear(_, _) => Cleared(m, Next(m, Consuming));
      case StoreHead(_, _) => Advanced(m);
      case _ =>
    }
  }

  lemma StepInv(m: Run, e: Event)
    requires Inv(m)
    ensures Inv(Next(m, e))
  {
    if e.Producing? { ProducerStep(m, e); } else { ConsumerStep(m); }
  }

  function Final(m: Run, sched: seq<Event>): (r: Run)
    requires Wf(m.q)
    ensures r.q == Exec(m.q, sched)
    decreases sched
  {
    if sched == [] then m else Final(Next(m, sched[0]), sched[1..])
  }

  lemma {:induction false} RunInv(m: Run, sched: seq<Event>)
    requires Inv(m)
    ensures Inv(Final(m, sched))
    ensures Fifo.Legal(m.log.obj, Meanings(m, sched))
    ensures Fifo.Visibles(Meanings(m, sched)) == Trace(m.q, sched)
    decreases sched
  {
    if sched == [] {
    } else {
      var e, rest := sched[0], sched[1..];
      StepInv(m, e);
      StepEnabled(m, e);
      RunInv(Next(m, e), rest);
      assert Meanings(m, sched)[1..] == Meanings(Next(m, e), rest);
    }
  }

  // Theorems over every schedule

  lemma Linearizable(n: nat, sched: seq<Event>)
    requires n > 0
    ensures Fifo.Linearizable(n, 2, Trace(New(n), sched))
  {
    RunInv(Start(n), sched);
  }

  /** The bounds on the cached indices, and what they buy: a cached test admits only what the exact test admits. */
  lemma CachedIndices(n: nat, sched: seq<Event>)
    requires n > 0
    ensures var q := Exec(New(n), sched);
      && q.cachedHead <= q.head <= q.tail <= q.cachedHead + n
      && q.cachedTail <= q.tail
      && (q.prod.Write? ==> q.prod.tail == q.tail < q.cachedHead + n <= q.head + n)
      && (q.con.Read? ==> q.con.head == q.head < q.cachedTail <= q.tail)
  {
    RunInv(Start(n), sched);
  }

  /** Between calls every slot holds its published item, or is cleared. */
  lemma SlotsExact(n: nat, sched: seq<Event>, p: nat)
    requires n > 0
    ensures var m := Final(Start(n), sched);
      m.q.prod.Resting? && m.q.con.Away? && m.q.head <= p < m.q.head + n ==>
        |m.log.vals| == m.q.tail && Data(m.q, p) == if p < m.q.tail then m.log.vals[p] else 0
  {
    RunInv(Start(n), sched);
  }

  /** Writer and reader are never at the data of one slot. */
  lemma NoDataRace(n: nat, sched: seq<Event>)
    requires n > 0
    ensures var q := Exec(New(n), sched);
      q.prod.Write? && (q.con.Read? || q.con.Clear?) ==> Slot(q.prod.tail, n) != Slot(q.con.head, n)
  {
    RunInv(Start(n), sched);
    var m := Final(Start(n), sched);
    if m.q.prod.Write? && (m.q.con.Read? || m.q.con.Clear?) {
      Separate(m, m.q.head);
    }
  }
}

/** Both operations of SPSC are wait-free, and Dequeue returns what it finds. */
module SPSCProgress {
  import opened Ring
  import opened SPSC
  import opened SPSCProof
  import Fifo = BoundedFifo

  /** The number of own steps a running call has made at most when it stands there. */
  function ProducerSteps(l: Producer): nat {
    match l
    case Resting => 0
    case LoadTail(_) => 1
    case Refresh(_, _) => 2
    case Write(_, _) => 3
    case StoreTail(_, _) => 4
    case Returning(_) => 5
  }

  function ConsumerSteps(l: Consumer): nat {
    match l
    case Away => 0
    case LoadHead => 1
    case Reload(_) => 2
    case Read(_) => 3
    case Clear(_, _) => 4
    case StoreHead(_, _) => 5
    case Leaving(_) => 6
  }

  datatype Option<T> = None | Some(value: T)

  /**
   A run with the own steps of the running calls, and the oldest published value that the
   consumer's call could have seen when it loaded `head`.
   */
  datatype Count = Count(m: Run, puts: nat, takes: nat, due: Option<nat>)

  function Begun(n: nat): Count {
    Count(Start(n), 0, 0, None)
  }

  function NextCount(c: Count, e: Event): (r: Count)
    requires Wf(c.m.q)
    ensures Wf(r.m.q) && r.m == Next(c.m, e)
  {
    var m' := Next(c.m, e);
    match e
    case Producing(_) => Count(m', if m'.q.prod.Resting? then 0 else c.puts + 1, c.takes, c.due)
    case Consuming =>
      Count(m', c.puts, if m'.q.con.Away? then 0 else c.takes + 1,
        if c.m.q.con.LoadHead? then
          (if c.m.q.head < c.m.q.tail && c.m.q.head < |c.m.log.vals| then Some(c.m.log.vals[c.m.q.head]) else None)
        else c.due)
  }

  function FinalCount(c: Count, sched: seq<Event>): (r: Count)
    requires Wf(c.m.q)
    ensures Wf(r.m.q) && r.m == Final(c.m, sched)
    decreases sched
  {
    if sched == [] then c else FinalCount(NextCount(c, sched[0]), sched[1..])
  }

  /** A call that saw an item is on its way to it. */
  ghost predicate OnItsWay(q: Queue, log: Log, due: nat) {
    match q.con
    case Reload(h) => h == q.head < q.tail <= |log.vals| && log.vals[h] == due
    case Read(h) => h == q.head < q.tail <= |log.vals| && log.vals[h] == due
    case Clear(_, v) => v == due
    case StoreHead(_, v) => v == due
    case Leaving(res) => res == Fifo.Got(due)
    case _ => true
  }

  ghost predicate CountInv(c: Count) {
    && Inv(c.m) && c.puts <= ProducerSteps(c.m.q.prod) && c.takes <= ConsumerSteps(c.m.q.con)
    && (c.due.Some? ==> OnItsWay(c.m.q, c.m.log, c.due.value))
  }

  lemma CountStep(c: Count, e: Event)
    requires CountInv(c)
    ensures CountInv(NextCount(c, e))
  {
    StepInv(c.m, e);
  }

  lemma {:induction false} CountRun(c: Count, sched: seq<Event>)
    requires CountInv(c)
    ensures CountInv(FinalCount(c, sched))
    decreases sched
  {
    if sched == [] {
    } else {
      CountStep(c, sched[0]);
      CountRun(NextCount(c, sched[0]), sched[1..]);
    }
  }

  /**
   Wait-free: whatever the other side does, an Enqueue that has not returned has made at most
   5 steps of its own, and a Dequeue at most 6.
   */
  lemma WaitFree(n: nat, sched: seq<Event>)
    requires n > 0
    ensures var c := FinalCount(Begun(n), sched);
      c.m == Final(Start(n), sched) && c.puts <= 5 && c.takes <= 6
  {
    CountRun(Begun(n), sched);
  }

  /** A Dequeue that loads `head` while something is published returns the oldest published value. */
  lemma DequeueReturnsOldest(n: nat, sched: seq<Event>)
    requires n > 0
    ensures var c := FinalCount(Begun(n), sched);
      c.m.q.con.Leaving? && c.due.Some? ==> c.m.q.con.res == Fifo.Got(c.due.value)
  {
    CountRun(Begun(n), sched);
  }
}
