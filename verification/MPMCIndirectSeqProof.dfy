/**
 MPMCIndirectSeq is linearizable to a bounded FIFO at the slot CAS, for any number of threads.
 */
module MPMCIndirectSeqProof {
  import opened Ring
  import opened MPMCIndirectSeq
  import Fifo = BoundedFifo

  // The invariant

  /** Each index lags the slots by at most one position. */
  ghost predicate Indices(q: Queue, log: Log) {
    && q.n >= 2 && |log.prod| == |log.vals|
    && q.tail <= |log.vals| <= q.tail + 1
    && q.head <= |log.cons| <= q.head + 1
    && |log.cons| <= |log.vals| <= |log.cons| + q.n
    && |log.obj.status| == |q.th|
  }

  /** The window from the first untaken position visits every slot once. */
  ghost predicate Layout(q: Queue, log: Log) {
    && Wf(q)
    && forall p :: |log.cons| <= p < |log.cons| + q.n ==>
         q.slots[Slot(p, q.n)] == if p < |log.vals| then Entry(p + 1, log.vals[p]) else Entry(p, 0)
  }

  /** A lagging index has exactly one thread about to advance it. */
  ghost predicate Owners(q: Queue, log: Log)
    requires Indices(q, log)
  {
    && (q.tail < |log.vals| ==> log.prod[q.tail] < |q.th| && q.th[log.prod[q.tail]] == EnqAdvance(q.tail))
    && (q.head < |log.cons| ==> log.cons[q.head] < |q.th| && q.th[log.cons[q.head]].DeqAdvance?)
  }

  ghost predicate Abstract(q: Queue, log: Log)
    requires Indices(q, log)
  {
    log.obj.cap == q.n && log.obj.queue == log.vals[|log.cons|..]
  }

  ghost predicate LocalOk(q: Queue, log: Log, i: nat)
    requires Indices(q, log) && i < |q.th|
  {
    match q.th[i]
    case EnqLoadSlot(_, tail) => tail <= q.tail
    case EnqFill(_, tail, val) => tail <= q.tail && val == 0
    case EnqAdvance(tail) => tail == q.tail < |log.vals| && log.prod[tail] == i
    case DeqLoadSlot(head) => head <= q.head
    case DeqTake(head, val) => head <= q.head && head < |log.vals| && log.vals[head] == val
    case DeqAdvance(head, _) => head == q.head < |log.cons| && log.cons[head] == i
    case _ => true
  }

  ghost predicate StatusOk(q: Queue, log: Log, i: nat)
    requires i < |q.th| == |log.obj.status|
  {
    var st := log.obj.status[i];
    match q.th[i]
    case Resting => st == Fifo.Idle
    case EnqLoadTail(v) => st == Fifo.Pending(Fifo.Enq(v))
    case EnqLoadSlot(v, _) => st == Fifo.Pending(Fifo.Enq(v))
    case EnqFill(v, _, _) => st == Fifo.Pending(Fifo.Enq(v))
    case EnqAdvance(_) => st == Fifo.Done(Fifo.Ok)
    case DeqAdvance(_, v) => st == Fifo.Done(Fifo.Got(v))
    case Returning(res) => st == Fifo.Done(res)
    case _ => st == Fifo.Pending(Fifo.Deq)
  }

  ghost predicate ThreadOk(q: Queue, log: Log, i: nat)
    requires Indices(q, log) && i < |q.th|
  {
    LocalOk(q, log, i) && StatusOk(q, log, i)
  }

  ghost predicate Inv(m: Run) {
    && Indices(m.q, m.log) && Layout(m.q, m.log) && Owners(m.q, m.log) && Abstract(m.q, m.log)
    && forall i :: 0 <= i < |m.q.th| ==> ThreadOk(m.q, m.log, i)
  }

  lemma StartInv(n: nat, threads: nat)
    requires n >= 2
    ensures Inv(Start(n, threads))
  {
  }

  // What a slot can show

  /** A producer at `t` sees its own number, a later one, or an old one exactly when the queue is full. */
  lemma ProducerSees(m: Run, t: nat)
    requires Inv(m) && t <= m.q.tail
    ensures At(m.q, t).num == t <==> t == |m.log.vals| < |m.log.cons| + m.q.n
    ensures At(m.q, t).num == t ==> At(m.q, t).val == 0
    ensures At(m.q, t).num < t <==> t == |m.log.vals| == |m.log.cons| + m.q.n
  {
    if t < |m.log.cons| {
      var p := Later(t, |m.log.cons|, m.q.n);
      assert m.q.slots[Slot(p, m.q.n)].num >= p;
    } else if t == |m.log.cons| + m.q.n {
      assert Slot(t, m.q.n) == Slot(|m.log.cons|, m.q.n);
      assert m.q.slots[Slot(|m.log.cons|, m.q.n)].num == |m.log.cons| + 1;
    } else {
      assert m.q.slots[Slot(t, m.q.n)].num == if t < |m.log.vals| then t + 1 else t;
    }
  }

  /** A consumer at `h` sees its item, a later number, or an old one exactly when the queue is empty. */
  lemma ConsumerSees(m: Run, h: nat)
    requires Inv(m) && h <= m.q.head
    ensures At(m.q, h).num == h + 1 <==> h == |m.log.cons| < |m.log.vals|
    ensures At(m.q, h).num == h + 1 ==> At(m.q, h).val == m.log.vals[h]
    ensures At(m.q, h).num < h + 1 <==> h == |m.log.cons| == |m.log.vals|
  {
    if h < |m.log.cons| {
      var p := Later(h, |m.log.cons|, m.q.n);
      assert m.q.slots[Slot(p, m.q.n)].num >= p;
    } else {
      assert m.q.slots[Slot(h, m.q.n)] == if h < |m.log.vals| then Entry(h + 1, m.log.vals[h]) else Entry(h, 0);
    }
  }

  // The threads that do not move

  ghost predicate Evolves(m: Run, m': Run, t: nat) {
    var q, q', log, log' := m.q, m'.q, m.log, m'.log;
    && Indices(q, log) && Indices(q', log') && q'.n == q.n && |q'.th| == |q.th|
    && q.tail <= q'.tail && q.head <= q'.head
    && log.vals <= log'.vals && log.prod <= log'.prod && log.cons <= log'.cons
    && forall i :: 0 <= i < |q.th| && i != t ==>
         && q'.th[i] == q.th[i] && log'.obj.status[i] == log.obj.status[i]
         && (q.th[i].EnqAdvance? ==> q'.tail == q.tail)
         && (q.th[i].DeqAdvance? ==> q'.head == q.head)
  }

  lemma Preserved(m: Run, m': Run, t: nat)
    requires Inv(m) && t < |m.q.th| && Evolves(m, m', t)
    requires Layout(m'.q, m'.log) && Owners(m'.q, m'.log) && Abstract(m'.q, m'.log)
    requires ThreadOk(m'.q, m'.log, t)
    ensures Inv(m')
  {
    forall i | 0 <= i < |m'.q.th|
      ensures ThreadOk(m'.q, m'.log, i)
    {
      assert ThreadOk(m.q, m.log, i);
    }
  }

  /** Only the thread's own place and status change. */
  lemma Quiet(m: Run, m': Run, t: nat)
    requires Inv(m) && t < |m.q.th| && |m'.q.th| == |m.q.th| && |m'.log.obj.status| == |m.q.th|
    requires m'.q == m.q.(th := m.q.th[t := m'.q.th[t]])
    requires m'.log == m.log.(obj := m.log.obj.(status := m.log.obj.status[t := m'.log.obj.status[t]]))
    requires !m.q.th[t].EnqAdvance? && !m.q.th[t].DeqAdvance?
    requires ThreadOk(m'.q, m'.log, t)
    ensures Inv(m')
  {
    Preserved(m, m', t);
  }

  // Steps that change a slot or an index

  lemma Filled(m: Run, m': Run, t: nat)
    requires Inv(m) && t < |m.q.th| && m.q.th[t].EnqFill?
    requires var EnqFill(v, u, val) := m.q.th[t];
      && At(m.q, u) == Entry(u, val)
      && m'.q == Put(Goto(m.q, t, EnqAdvance(u)), u, Entry(u + 1, v))
      && m'.log == m.log.(vals := m.log.vals + [v], prod := m.log.prod + [t], obj := m'.log.obj)
      && Fifo.Enabled(m.log.obj, Fifo.Effect(t)) && m'.log.obj == Fifo.Apply(m.log.obj, Fifo.Effect(t))
    ensures Inv(m')
  {
    assert ThreadOk(m.q, m.log, t);
    var u := m.q.th[t].tail;
    ProducerSees(m, u);
    forall p | |m.log.cons| <= p < |m.log.cons| + m.q.n && p != u
      ensures Slot(p, m.q.n) != Slot(u, m.q.n)
    {
      Apart(p, u, m.q.n);
    }
    assert m'.log.vals[|m.log.cons|..] == m.log.vals[|m.log.cons|..] + [m.q.th[t].v];
    Preserved(m, m', t);
  }

  lemma Taken(m: Run, m': Run, t: nat)
    requires Inv(m) && t < |m.q.th| && m.q.th[t].DeqTake?
    requires var DeqTake(h, val) := m.q.th[t];
      && At(m.q, h) == Entry(h + 1, val)
      && m'.q == Put(Goto(m.q, t, DeqAdvance(h, val)), h, Entry(h + m.q.n, 0))
      && m'.log == m.log.(cons := m.log.cons + [t], obj := m'.log.obj)
      && Fifo.Enabled(m.log.obj, Fifo.Effect(t)) && m'.log.obj == Fifo.Apply(m.log.obj, Fifo.Effect(t))
    ensures Inv(m')
  {
    assert ThreadOk(m.q, m.log, t);
    var h := m.q.th[t].head;
    ConsumerSees(m, h);
    assert Slot(h + m.q.n, m.q.n) == Slot(h, m.q.n);
    forall p | h < p < h + m.q.n
      ensures Slot(p, m.q.n) != Slot(h, m.q.n)
    {
      Apart(p, h, m.q.n);
    }
    assert m'.log.vals[|m.log.cons| + 1..] == m.log.vals[|m.log.cons|..][1..];
    Preserved(m, m', t);
  }

  /** The CAS on the index always succeeds. */
  lemma Advanced(m: Run, m': Run, t: nat)
    requires Inv(m) && t < |m.q.th| && m'.log == m.log
    requires match m.q.th[t]
      case EnqAdvance(u) => m'.q == Goto(m.q, t, Returning(Fifo.Ok)).(tail := if m.q.tail == u then u + 1 else m.q.tail)
      case DeqAdvance(h, v) =>
        m'.q == Goto(m.q, t, Returning(Fifo.Got(v))).(head := if m.q.head == h then h + 1 else m.q.head)
      case _ => false
    ensures Inv(m')
    ensures m.q.th[t].EnqAdvance? ==> m'.q.tail == m.q.tail + 1 == |m.log.vals|
    ensures m.q.th[t].DeqAdvance? ==> m'.q.head == m.q.head + 1 == |m.log.cons|
  {
    assert ThreadOk(m.q, m.log, t);
    forall i | 0 <= i < |m.q.th| && i != t
      ensures m.q.th[i].EnqAdvance? ==> m'.q.tail == m.q.tail
      ensures m.q.th[i].DeqAdvance? ==> m'.q.head == m.q.head
    {
      assert ThreadOk(m.q, m.log, i);
    }
    Preserved(m, m', t);
  }

  // Every step

  /** Every step is a step of the abstract bounded FIFO; refusals are exact at the slot load. */
  lemma StepEnabled(m: Run, e: Event)
    requires Inv(m)
    ensures Fifo.Enabled(m.log.obj, Meaning(m.q, e))
  {
    if e.t < |m.q.th| {
      assert ThreadOk(m.q, m.log, e.t);
      match m.q.th[e.t] {
        case EnqLoadSlot(_, u) => ProducerSees(m, u);
        case EnqFill(_, u, _) => ProducerSees(m, u);
        case DeqLoadSlot(h) => ConsumerSees(m, h);
        case DeqTake(h, _) => ConsumerSees(m, h);
        case _ =>
      }
    }
  }

  lemma QuietStep(m: Run, e: Event)
    requires Inv(m) && e.t < |m.q.th|
    requires match m.q.th[e.t]
      case EnqFill(_, _, _) | DeqTake(_, _) | EnqAdvance(_) | DeqAdvance(_, _) => false
      case _ => true
    ensures Inv(Next(m, e))
  {
    var m' := Next(m, e);
    assert ThreadOk(m.q, m.log, e.t);
    StepEnabled(m, e);
    match m.q.th[e.t] {
      case EnqLoadSlot(_, u) => ProducerSees(m, u);
      case DeqLoadSlot(h) => ConsumerSees(m, h);
      case _ =>
    }
    assert ThreadOk(m'.q, m'.log, e.t);
    Quiet(m, m', e.t);
  }

  lemma SlotStep(m: Run, e: Event)
    requires Inv(m) && e.t < |m.q.th| && (m.q.th[e.t].EnqFill? || m.q.th[e.t].DeqTake?)
    ensures Inv(Next(m, e))
  {
    var m', t := Next(m, e), e.t;
    StepEnabled(m, e);
    assert ThreadOk(m.q, m.log, t);
    match m.q.th[t] {
      case EnqFill(v, u, val) =>
        if At(m.q, u) == Entry(u, val) { Filled(m, m', t); } else { Quiet(m, m', t); }
      case DeqTake(h, val) =>
        if At(m.q, h) == Entry(h + 1, val) { Taken(m, m', t); } else { Quiet(m, m', t); }
    }
  }

  lemma StepInv(m: Run, e: Event)
    requires Inv(m)
    ensures Inv(Next(m, e))
  {
    if e.t < |m.q.th| {
      match m.q.th[e.t] {
        case EnqFill(_, _, _) | DeqTake(_, _) => SlotStep(m, e);
        case EnqAdvance(_) | DeqAdvance(_, _) => Advanced(m, Next(m, e), e.t);
        case _ => QuietStep(m, e);
      }
    }
  }

  lemma StepShown(m: Run, e: Event)
    requires Wf(m.q) && Fifo.Enabled(m.log.obj, Meaning(m.q, e))
    ensures Shown(m.q, e) == if Fifo.Visible(Meaning(m.q, e)) then [Meaning(m.q, e)] else []
    ensures Next(m, e).log.obj == Fifo.Apply(m.log.obj, Meaning(m.q, e))
  {
  }

  lemma {:induction false} RunInv(m: Run, sched: seq<Event>)
    requires Inv(m)
    ensures Inv(Final(m, sched))
    ensures Fifo.Legal(m.log.obj, Meanings(m, sched))
    ensures Fifo.Visibles(Meanings(m, sched)) == Trace(m.q, sched)
    decreases sched
  {
    if sched == [] {
    } else {
      var e, rest := sched[0], sched[1..];
      StepInv(m, e);
      StepEnabled(m, e);
      StepShown(m, e);
      RunInv(Next(m, e), rest);
      assert Meanings(m, sched)[1..] == Meanings(Next(m, e), rest);
    }
  }

  // Theorems over every schedule

  /** MPMCIndirectSeq is linearizable to a FIFO bounded by `n`, for any values and any threads. */
  lemma Linearizable(n: nat, threads: nat, sched: seq<Event>)
    requires n >= 2
    ensures Fifo.Linearizable(n, threads, Trace(New(n, threads), sched))
  {
    StartInv(n, threads);
    RunInv(Start(n, threads), sched);
  }

  /** The indices lag the true counts by at most one, and the lagging CAS never fails. */
  lemma IndexLag(n: nat, threads: nat, sched: seq<Event>, t: nat)
    requires n >= 2 && t < threads
    ensures var m := Final(Start(n, threads), sched);
      && m.q.tail <= |m.log.vals| <= m.q.tail + 1 && m.q.head <= |m.log.cons| <= m.q.head + 1
      && |m.log.cons| <= |m.log.vals| <= |m.log.cons| + n
      && (m.q.th[t].EnqAdvance? ==> m.q.th[t].tail == m.q.tail)
      && (m.q.th[t].DeqAdvance? ==> m.q.th[t].head == m.q.head)
  {
    StartInv(n, threads);
    RunInv(Start(n, threads), sched);
    var m := Final(Start(n, threads), sched);
    assert ThreadOk(m.q, m.log, t);
  }
}
