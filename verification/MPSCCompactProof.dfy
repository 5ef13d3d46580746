/**
 MPSCCompactIndirect is linearizable to a bounded FIFO for any number of producers and
 arbitrary, also repeated, values.
 */
module MPSCCompactProof {
  import opened Ring
  import opened CompactRing
  import opened MPSCCompact
  import Fifo = BoundedFifo

  // The invariant

  ghost predicate Indices(q: Queue, log: Log) {
    && q.n > 0 && |log.prod| == |log.vals|
    && q.tail <= |log.vals| <= q.tail + 1
    && log.taken == (if q.con.Move? then q.head + 1 else q.head)
    && log.taken <= q.tail
    && |log.vals| <= q.head + q.n
    && |log.obj.status| == |q.th| + 1
  }

  /** A filled position that `tail` has not passed has its producer waiting to pass it. */
  ghost predicate Owner(q: Queue, log: Log)
    requires Indices(q, log)
  {
    q.tail < |log.vals| ==>
      log.prod[q.tail] < |q.th| && q.th[log.prod[q.tail]] == Advance(log.vals[q.tail], q.tail)
  }

  ghost predicate Abstract(q: Queue, log: Log)
    requires Indices(q, log)
  {
    log.obj.cap == q.n && log.obj.queue == log.vals[q.head..q.tail]
  }

  ghost predicate ConsumerOk(q: Queue, log: Log)
    requires Indices(q, log)
  {
    var st := log.obj.status[|q.th|];
    match q.con
    case Away => st == Fifo.Idle
    case ReadHead => st == Fifo.Pending(Fifo.Deq)
    case ReadTail(h) => st == Fifo.Pending(Fifo.Deq) && h == q.head
    case Load(h) => st == Fifo.Pending(Fifo.Deq) && h == q.head < q.tail
    case Store(h, v) => st == Fifo.Pending(Fifo.Deq) && h == q.head < q.tail && v == log.vals[h]
    case Move(h, v) => st == Fifo.Pending(Fifo.Deq) && h == q.head < q.tail && v == log.vals[h]
    case Leaving(res) => st == Fifo.Done(res)
  }

  ghost predicate ProducerOk(q: Queue, log: Log, i: nat)
    requires Indices(q, log) && i < |q.th|
  {
    var st := log.obj.status[i];
    match q.th[i]
    case Resting => st == Fifo.Idle
    case LoadTail(v) => st == Fifo.Pending(Fifo.Enq(v))
    case LoadHead(v, tail) => st == Fifo.Pending(Fifo.Enq(v)) && tail <= q.tail
    case Fill(v, tail) => st == Fifo.Pending(Fifo.Enq(v)) && tail <= q.tail && tail < q.head + q.n
    case Advance(v, tail) =>
      && st == (if tail < q.tail then Fifo.Done(Fifo.Ok) else Fifo.Pending(Fifo.Enq(v)))
      && tail <= q.tail && tail < |log.vals| && log.vals[tail] == v && log.prod[tail] == i
    case Help(v, tail) => st == Fifo.Pending(Fifo.Enq(v)) && tail <= q.tail && tail < |log.vals|
    case Returning(res) => st == Fifo.Done(res)
  }

  ghost predicate Inv(m: Run) {
    && Indices(m.q, m.log) && Layout(m.q.buf, m.q.n, m.log.taken, m.log.vals)
    && Owner(m.q, m.log) && Abstract(m.q, m.log) && ConsumerOk(m.q, m.log)
    && forall i :: 0 <= i < |m.q.th| ==> ProducerOk(m.q, m.log, i)
  }

  lemma StartInv(n: nat, producers: nat)
    requires n > 0
    ensures Inv(Start(n, producers))
  {
    NewLayout(n);
  }

  // The producers that do not move

  function Passed(q: Queue, q': Queue, l: Producer, st: Fifo.Status<nat>): Fifo.Status<nat> {
    if l.Advance? && l.tail == q.tail < q'.tail then Fifo.Done(Fifo.Ok) else st
  }

  ghost predicate Evolves(m: Run, m': Run) {
    var q, q', log, log' := m.q, m'.q, m.log, m'.log;
    && Indices(q, log) && Indices(q', log') && q'.n == q.n && |q'.th| == |q.th|
    && q.tail <= q'.tail && q.head <= q'.head
    && log.vals <= log'.vals && log.prod <= log'.prod
  }

  ghost predicate Same(m: Run, m': Run, i: nat)
    requires Evolves(m, m') && i < |m.q.th|
  {
    && m'.q.th[i] == m.q.th[i]
    && m'.log.obj.status[i] == Passed(m.q, m'.q, m.q.th[i], m.log.obj.status[i])
  }

  lemma Undisturbed(m: Run, m': Run, i: nat)
    requires Evolves(m, m') && i < |m.q.th| && Same(m, m', i) && ProducerOk(m.q, m.log, i)
    ensures ProducerOk(m'.q, m'.log, i)
  {
  }

  /** Thread `t` moved; `t == |th|` is the consumer. */
  lemma Preserved(m: Run, m': Run, t: nat)
    requires Inv(m) && t <= |m.q.th| && Evolves(m, m')
    requires Layout(m'.q.buf, m'.q.n, m'.log.taken, m'.log.vals)
    requires Owner(m'.q, m'.log) && Abstract(m'.q, m'.log) && ConsumerOk(m'.q, m'.log)
    requires forall i :: 0 <= i < |m.q.th| && i != t ==> Same(m, m', i)
    requires t < |m.q.th| ==> ProducerOk(m'.q, m'.log, t)
    ensures Inv(m')
  {
    forall i | 0 <= i < |m'.q.th|
      ensures ProducerOk(m'.q, m'.log, i)
    {
      if i != t {
        Undisturbed(m, m', i);
      }
    }
  }

  // Producer steps

  lemma Quiet(m: Run, m': Run, t: nat)
    requires Inv(m) && t < |m.q.th| && |m'.q.th| == |m.q.th| && |m'.log.obj.status| == |m.q.th| + 1
    requires m'.q == m.q.(th := m.q.th[t := m'.q.th[t]]) && !m.q.th[t].Advance?
    requires m'.log == m.log.(obj := m.log.obj.(status := m.log.obj.status[t := m'.log.obj.status[t]]))
    requires ProducerOk(m'.q, m'.log, t)
    ensures Inv(m')
  {
    Preserved(m, m', t);
  }

  lemma Filled(m: Run, m': Run, t: nat)
    requires Inv(m) && t < |m.q.th| && m.q.th[t].Fill?
    requires var Fill(v, u) := m.q.th[t];
      && m.q.buf[Slot(u, m.q.n)] == Empty(Round(u, m.q.n))
      && m'.q == Goto(m.q, t, Advance(v, u)).(buf := m.q.buf[Slot(u, m.q.n) := Value(v)])
      && m'.log == m.log.(vals := m.log.vals + [v], prod := m.log.prod + [t])
    ensures Inv(m')
  {
    var l := m.q.th[t];
    assert ProducerOk(m.q, m.log, t);
    FillAt(m.q.buf, m.q.n, m.log.taken, m.log.vals, l.tail);
    FillKeeps(m.q.buf, m.q.n, m.log.taken, m.log.vals, l.v);
    assert m'.log.vals[m'.q.head..m'.q.tail] == m.log.vals[m.q.head..m.q.tail];
    Preserved(m, m', t);
  }

  lemma FillMissed(m: Run, m': Run, t: nat)
    requires Inv(m) && t < |m.q.th| && m.q.th[t].Fill? && m'.log == m.log
    requires var Fill(v, u) := m.q.th[t];
      m.q.buf[Slot(u, m.q.n)] != Empty(Round(u, m.q.n)) && m'.q == Goto(m.q, t, Help(v, u))
    ensures Inv(m')
  {
    assert ProducerOk(m.q, m.log, t);
    FillAt(m.q.buf, m.q.n, m.log.taken, m.log.vals, m.q.th[t].tail);
    Quiet(m, m', t);
  }

  /** `tail` passes its position in a step of producer `t`, which may be helping the owner. */
  lemma TailPasses(m: Run, m': Run, t: nat)
    requires Inv(m) && t < |m.q.th| && m.q.tail < |m.log.vals| && m'.log == m.log.(obj := m'.log.obj)
    requires var x := m.log.prod[m.q.tail];
      Fifo.Enabled(m.log.obj, Fifo.Effect(x)) && m'.log.obj == Fifo.Apply(m.log.obj, Fifo.Effect(x))
    requires match m.q.th[t]
      case Advance(_, u) => u == m.q.tail && m'.q == Goto(m.q, t, Returning(Fifo.Ok)).(tail := u + 1)
      case Help(v, u) => u == m.q.tail && m'.q == Goto(m.q, t, LoadTail(v)).(tail := u + 1)
      case _ => false
    ensures Inv(m')
  {
    assert ProducerOk(m.q, m.log, m.log.prod[m.q.tail]) && ProducerOk(m.q, m.log, t);
    assert m.log.vals[m.q.head..m.q.tail + 1] == m.log.vals[m.q.head..m.q.tail] + [m.log.vals[m.q.tail]];
    forall i | 0 <= i < |m.q.th| && i != t
      ensures Same(m, m', i)
    {
      assert ProducerOk(m.q, m.log, i);
    }
    Preserved(m, m', t);
  }

  lemma TailKept(m: Run, m': Run, t: nat)
    requires Inv(m) && t < |m.q.th| && m'.log == m.log
    requires match m.q.th[t]
      case Advance(_, u) => u != m.q.tail && m'.q == Goto(m.q, t, Returning(Fifo.Ok))
      case Help(v, u) => u != m.q.tail && m'.q == Goto(m.q, t, LoadTail(v))
      case _ => false
    ensures Inv(m')
  {
    assert ProducerOk(m.q, m.log, t);
    Preserved(m, m', t);
  }

  /** Every step is a step of the abstract bounded FIFO; refusals are exact at the second load. */
  lemma StepEnabled(m: Run, e: Event)
    requires Inv(m)
    ensures Fifo.Enabled(m.log.obj, Meaning(m, e))
  {
    if e.Producing? && e.t < |m.q.th| {
      assert ProducerOk(m.q, m.log, e.t);
      if m.q.tail < |m.log.prod| {
        assert ProducerOk(m.q, m.log, m.log.prod[m.q.tail]);
      }
    }
  }

  lemma TailStep(m: Run, e: Event)
    requires Inv(m) && e.Producing? && e.t < |m.q.th| && (m.q.th[e.t].Advance? || m.q.th[e.t].Help?)
    ensures Inv(Next(m, e))
  {
    var m' := Next(m, e);
    StepEnabled(m, e);
    assert ProducerOk(m.q, m.log, e.t);
    if m.q.th[e.t].tail == m.q.tail { TailPasses(m, m', e.t); } else { TailKept(m, m', e.t); }
  }

  lemma QuietStep(m: Run, e: Event)
    requires Inv(m) && e.Producing? && e.t < |m.q.th|
    requires !m.q.th[e.t].Advance? && !m.q.th[e.t].Help? && !m.q.th[e.t].Fill?
    ensures Inv(Next(m, e))
  {
    var m' := Next(m, e);
    StepEnabled(m, e);
    assert ProducerOk(m.q, m.log, e.t);
    assert ProducerOk(m'.q, m'.log, e.t);
    Quiet(m, m', e.t);
  }

  lemma ProducerStep(m: Run, e: Event)
    requires Inv(m) && e.Producing? && e.t < |m.q.th|
    ensures Inv(Next(m, e))
  {
    var m', t := Next(m, e), e.t;
    match m.q.th[t] {
      case Fill(v, u) =>
        if m.q.buf[Slot(u, m.q.n)] == Empty(Round(u, m.q.n)) { Filled(m, m', t); } else { FillMissed(m, m', t); }
      case Advance(_, _) | Help(_, _) => TailStep(m, e);
      case _ => QuietStep(m, e);
    }
  }

  // Consumer steps

  /** `tail` passes a position only once it is filled: the empty-flag refusal is unreachable. */
  lemma LoadedValue(m: Run)
    requires Inv(m) && m.q.con.Load?
    ensures m.q.buf[Slot(m.q.con.head, m.q.n)] == Value(m.log.vals[m.q.con.head])
  {
  }

  lemma ConsumerQuiet(m: Run, m': Run)
    requires Inv(m) && |m'.log.obj.status| == |m.q.th| + 1
    requires m'.q == m.q.(con := m'.q.con) && !m.q.con.Move? && !m'.q.con.Move?
    requires var c := |m.q.th|;
      m'.log == m.log.(obj := m.log.obj.(status := m.log.obj.status[c := m'.log.obj.status[c]]))
    requires Indices(m'.q, m'.log) && ConsumerOk(m'.q, m'.log)
    ensures Inv(m')
  {
    Preserved(m, m', |m.q.th|);
  }

  lemma Stored(m: Run, m': Run)
    requires Inv(m) && m.q.con.Store?
    requires var Store(h, v) := m.q.con;
      && m'.q == m.q.(con := Move(h, v), buf := m.q.buf[Slot(h, m.q.n) := Empty(Round(h, m.q.n) + 1)])
      && m'.log == m.log.(taken := m.log.taken + 1)
    ensures Inv(m')
  {
    TakeKeeps(m.q.buf, m.q.n, m.log.taken, m.log.vals);
    Preserved(m, m', |m.q.th|);
  }

  lemma Moved(m: Run, m': Run)
    requires Inv(m) && m.q.con.Move?
    requires var Move(h, v) := m.q.con;
      m'.q == m.q.(con := Leaving(Fifo.Got(v)), head := h + 1)
    requires var x := |m.q.th|;
      && Fifo.Enabled(m.log.obj, Fifo.Effect(x))
      && m'.log == m.log.(obj := Fifo.Apply(m.log.obj, Fifo.Effect(x)))
    ensures Inv(m')
  {
    assert m.log.vals[m.q.head..m.q.tail][1..] == m.log.vals[m.q.head + 1..m.q.tail];
    Preserved(m, m', |m.q.th|);
  }

  lemma ConsumerStep(m: Run)
    requires Inv(m)
    ensures Inv(Next(m, Consuming))
  {
    var m' := Next(m, Consuming);
    StepEnabled(m, Consuming);
    match m.q.con {
      case Store(_, _) => Stored(m, m');
      case Move(_, _) => Moved(m, m');
      case Load(_) =>
        LoadedValue(m);
        ConsumerQuiet(m, m');
      case _ => ConsumerQuiet(m, m');
    }
  }

  lemma StepInv(m: Run, e: Event)
    requires Inv(m)
    ensures Inv(Next(m, e))
  {
    if e.Consuming? {
      ConsumerStep(m);
    } else if e.t < |m.q.th| {
      ProducerStep(m, e);
    }
  }

  lemma StepShown(m: Run, e: Event)
    requires Wf(m.q) && Fifo.Enabled(m.log.obj, Meaning(m, e))
    ensures Shown(m.q, e) == if Fifo.Visible(Meaning(m, e)) then [Meaning(m, e)] else []
    ensures Next(m, e).log.obj == Fifo.Apply(m.log.obj, Meaning(m, e))
  {
  }

  lemma {:induction false} RunInv(m: Run, sched: seq<Event>)
    requires Inv(m)
    ensures Inv(Final(m, sched))
    ensures Fifo.Legal(m.log.obj, Meanings(m, sched))
    ensures Fifo.Visibles(Meanings(m, sched)) == Trace(m.q, sched)
    decreases sched
  {
    if sched == [] {
    } else {
      var e, rest := sched[0], sched[1..];
      StepInv(m, e);
      StepEnabled(m, e);
      StepShown(m, e);
      RunInv(Next(m, e), rest);
      assert Meanings(m, sched)[1..] == Meanings(Next(m, e), rest);
    }
  }

  // Theorems over every schedule

  /** Linearizable to a FIFO bounded by `n`, with no condition on the values. */
  lemma Linearizable(n: nat, producers: nat, sched: seq<Event>)
    requires n > 0
    ensures Fifo.Linearizable(n, producers + 1, Trace(New(n, producers), sched))
  {
    StartInv(n, producers);
    RunInv(Start(n, producers), sched);
  }

  /** In no run does the consumer find an empty mark below `tail`. */
  lemma NoEmptyBelowTail(n: nat, producers: nat, sched: seq<Event>)
    requires n > 0
    ensures var q := Final(Start(n, producers), sched).q;
      q.con.Load? ==> q.buf[Slot(q.con.head, n)].Value?
  {
    StartInv(n, producers);
    RunInv(Start(n, producers), sched);
    var m := Final(Start(n, producers), sched);
    if m.q.con.Load? {
      LoadedValue(m);
    }
  }
}
