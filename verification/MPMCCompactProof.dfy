/**
 Linearizability and lock-freedom of MPMCCompactIndirect, for any number of threads.

 The abstract queue is the positions `[head, tail)`: an Enqueue takes effect when `tail`
 passes its position, a Dequeue when `head` does, whoever performs that step.
 */
module MPMCCompactProof {
  import opened Ring
  import opened CompactRing
  import opened MPMCCompact
  import Fifo = BoundedFifo

  // The invariant

  /** Each index lags the slots by at most one position; positions `[head, tail)` fit the ring. */
  ghost predicate Indices(q: Queue, log: Log) {
    && q.n > 0
    && |log.prod| == |log.vals|
    && q.tail <= |log.vals| <= q.tail + 1
    && q.head <= |log.cons| <= q.head + 1
    && |log.cons| <= q.tail
    && |log.vals| <= q.head + q.n
    && |log.base| == |q.th| && |log.trips| == |q.th| && |log.w.obj.status| == |q.th|
  }

  /** A position that is filled (taken) but not yet passed has its owner waiting to pass it. */
  ghost predicate Owners(q: Queue, log: Log)
    requires Indices(q, log)
  {
    && (q.tail < |log.vals| ==>
          log.prod[q.tail] < |q.th| && q.th[log.prod[q.tail]] == EnqAdvance(log.vals[q.tail], q.tail))
    && (q.head < |log.cons| ==>
          log.cons[q.head] < |q.th| && q.th[log.cons[q.head]] == DeqAdvance(q.head, log.vals[q.head]))
  }

  /** What thread `i` knows. */
  ghost predicate LocalOk(q: Queue, log: Log, i: nat)
    requires Indices(q, log) && i < |q.th|
  {
    match q.th[i]
    case EnqLoadHead(_, tail) => tail <= q.tail
    case EnqRecheck(_, tail, head) => tail <= q.tail && head <= q.head
    case EnqFill(_, tail) => tail <= q.tail && tail < q.head + q.n
    case EnqAdvance(v, tail) => tail <= q.tail && tail < |log.vals| && log.vals[tail] == v && log.prod[tail] == i
    case EnqHelp(_, tail) => tail <= q.tail && tail < |log.vals|
    case DeqLoadTail(head) => head <= q.head
    case DeqLoadSlot(head, tail) => head <= q.head && tail <= q.tail
    case DeqRecheck(head, tail, w) =>
      && head <= q.head && tail <= q.tail
      && (head == q.head && head < tail ==>
            w == Value(log.vals[head]) || (w == Empty(Round(head, q.n) + 1) && head < |log.cons|))
    case DeqTake(head, v) =>
      && head <= q.head && head < q.tail && log.vals[head] == v
      && forall p :: head < p < |log.vals| && Slot(p, q.n) == Slot(head, q.n) ==> log.vals[p] != v
    case DeqAdvance(head, v) => head <= q.head && head < |log.cons| && log.vals[head] == v && log.cons[head] == i
    case DeqHelp(head) => head <= q.head && head < |log.cons|
    case _ => true
  }

  /** How thread `i` stands in the abstract queue. */
  ghost predicate StatusOk(q: Queue, log: Log, i: nat)
    requires i < |q.th| == |log.w.obj.status|
  {
    var st, seen := log.w.obj.status[i], i in log.w.seen;
    match q.th[i]
    case Resting => st == Fifo.Idle
    case EnqRecheck(v, tail, head) => st == Fifo.Pending(Fifo.Enq(v)) && (tail >= head + q.n ==> seen)
    case EnqAdvance(v, tail) => st == if tail < q.tail then Fifo.Done(Fifo.Ok) else Fifo.Pending(Fifo.Enq(v))
    case DeqLoadSlot(head, tail) => st == Fifo.Pending(Fifo.Deq) && (head >= tail ==> seen)
    case DeqRecheck(head, tail, _) => st == Fifo.Pending(Fifo.Deq) && (head >= tail ==> seen)
    case DeqAdvance(head, v) => st == if head < q.head then Fifo.Done(Fifo.Got(v)) else Fifo.Pending(Fifo.Deq)
    case Returning(res) => st == Fifo.Done(res) || (res == Fifo.WouldBlock && st.Pending? && seen)
    case l => st == Fifo.Pending(if Enqueuing(l) then Fifo.Enq(l.v) else Fifo.Deq)
  }

  /**
   The loop of thread `i` has moved its index by at least one per trip, and none of those
   moves were its own.
   */
  ghost predicate TripsOk(q: Queue, log: Log, i: nat)
    requires Indices(q, log) && i < |q.th|
  {
    var l, least := q.th[i], log.base[i] + log.trips[i];
    if l.EnqLoadTail? then least <= q.tail && OthersFilled(log, i)
    else if Enqueuing(l) then least <= l.tail && OthersFilled(log, i)
    else if l.DeqLoadHead? then least <= q.head && OthersTook(log, i)
    else if Dequeuing(l) then least <= l.head && OthersTook(log, i)
    else if l.EnqAdvance? then log.base[i] <= l.tail
    else if l.DeqAdvance? then log.base[i] <= l.head
    else true
  }

  ghost predicate OthersFilled(log: Log, i: nat)
    requires |log.prod| == |log.vals| && i < |log.base|
  {
    forall p :: log.base[i] <= p < |log.prod| ==> log.prod[p] != i
  }

  ghost predicate OthersTook(log: Log, i: nat)
    requires i < |log.base|
  {
    forall p :: log.base[i] <= p < |log.cons| ==> log.cons[p] != i
  }

  /** The abstract queue is the values at positions `[head, tail)`. */
  ghost predicate Abstract(q: Queue, log: Log)
    requires Indices(q, log)
  {
    && log.w.obj.cap == q.n
    && log.w.obj.queue == log.vals[q.head..q.tail]
  }

  ghost predicate ThreadOk(q: Queue, log: Log, i: nat)
    requires Indices(q, log) && i < |q.th|
  {
    LocalOk(q, log, i) && StatusOk(q, log, i) && TripsOk(q, log, i)
  }

  ghost predicate Inv(m: Run) {
    && Indices(m.q, m.log) && Layout(m.q.buf, m.q.n, |m.log.cons|, m.log.vals)
    && Owners(m.q, m.log) && Abstract(m.q, m.log)
    && forall i :: 0 <= i < |m.q.th| ==> ThreadOk(m.q, m.log, i)
  }

  lemma StartInv(n: nat, threads: nat)
    requires n > 0
    ensures Inv(Start(n, threads))
  {
    NewLayout(n);
  }

  // The threads that do not move

  /** The status thread `i` has after the indices moved: passing its position completes it. */
  function Passed(q: Queue, q': Queue, l: Local, st: Fifo.Status<nat>): Fifo.Status<nat> {
    if l.EnqAdvance? && l.tail == q.tail < q'.tail then Fifo.Done(Fifo.Ok)
    else if l.DeqAdvance? && l.head == q.head < q'.head then Fifo.Done(Fifo.Got(l.v))
    else st
  }

  /** Thread `t` moved: memory and history only grew. */
  ghost predicate Evolves(m: Run, m': Run, t: nat) {
    var q, q', log, log' := m.q, m'.q, m.log, m'.log;
    && q'.n == q.n && |q'.th| == |q.th|
    && q.tail <= q'.tail && q.head <= q'.head
    && log.vals <= log'.vals && log.prod <= log'.prod && log.cons <= log'.cons
    && (forall p :: |log.prod| <= p < |log'.prod| ==> log'.prod[p] == t)
    && (forall p :: |log.cons| <= p < |log'.cons| ==> log'.cons[p] == t)
    && |log'.base| == |log.base| && |log'.trips| == |log.trips|
    && |log'.w.obj.status| == |log.w.obj.status|
  }

  ghost predicate Same(m: Run, m': Run, i: nat)
    requires Indices(m.q, m.log) && Indices(m'.q, m'.log) && i < |m.q.th| == |m'.q.th|
  {
    var q, q', log, log' := m.q, m'.q, m.log, m'.log;
    && q'.th[i] == q.th[i]
    && log'.base[i] == log.base[i] && log'.trips[i] == log.trips[i]
    && log'.w.obj.status[i] == Passed(q, q', q.th[i], log.w.obj.status[i])
    && (i in log.w.seen ==> i in log'.w.seen)
    && (q.th[i].DeqTake? ==>
          forall p :: |log.vals| <= p < |log'.vals| && Slot(p, q.n) == Slot(q.th[i].head, q.n) ==>
            log'.vals[p] != q.th[i].v)
  }

  ghost predicate Undisturbing(m: Run, m': Run, t: nat, i: nat) {
    && Indices(m.q, m.log) && Indices(m'.q, m'.log) && Evolves(m, m', t)
    && i < |m.q.th| && i != t && Same(m, m', i)
  }

  lemma LocalUndisturbed(m: Run, m': Run, t: nat, i: nat)
    requires Undisturbing(m, m', t, i) && LocalOk(m.q, m.log, i)
    ensures LocalOk(m'.q, m'.log, i)
  {
  }

  lemma StatusUndisturbed(m: Run, m': Run, t: nat, i: nat)
    requires Undisturbing(m, m', t, i) && LocalOk(m.q, m.log, i) && StatusOk(m.q, m.log, i)
    ensures StatusOk(m'.q, m'.log, i)
  {
  }

  lemma TripsUndisturbed(m: Run, m': Run, t: nat, i: nat)
    requires Undisturbing(m, m', t, i) && TripsOk(m.q, m.log, i)
    ensures TripsOk(m'.q, m'.log, i)
  {
  }

  lemma Preserved(m: Run, m': Run, t: nat)
    requires Inv(m) && t < |m.q.th|
    requires Indices(m'.q, m'.log) && Layout(m'.q.buf, m'.q.n, |m'.log.cons|, m'.log.vals)
    requires Owners(m'.q, m'.log) && Abstract(m'.q, m'.log)
    requires Evolves(m, m', t)
    requires forall i :: 0 <= i < |m.q.th| && i != t ==> Same(m, m', i)
    requires ThreadOk(m'.q, m'.log, t)
    ensures Inv(m')
  {
    forall i | 0 <= i < |m'.q.th|
      ensures ThreadOk(m'.q, m'.log, i)
    {
      if i != t {
        assert ThreadOk(m.q, m.log, i) && Same(m, m', i);
        LocalUndisturbed(m, m', t, i);
        StatusUndisturbed(m, m', t, i);
        TripsUndisturbed(m, m', t, i);
      }
    }
  }

  // Steps that only load, call or return

  ghost predicate OnlyThread(m: Run, m': Run, t: nat)
    requires Indices(m.q, m.log) && t < |m.q.th|
  {
    var q, q', log, log' := m.q, m'.q, m.log, m'.log;
    && |q'.th| == |q.th| && q' == q.(th := q.th[t := q'.th[t]])
    && log'.vals == log.vals && log'.prod == log.prod && log'.cons == log.cons
    && |log'.base| == |q.th| && |log'.trips| == |q.th| && |log'.w.obj.status| == |q.th|
    && log'.base == log.base[t := log'.base[t]] && log'.trips == log.trips[t := log'.trips[t]]
    && log'.w.obj == log.w.obj.(status := log.w.obj.status[t := log'.w.obj.status[t]])
    && log.w.seen - {t} <= log'.w.seen
  }

  lemma Quiet(m: Run, m': Run, t: nat)
    requires Inv(m) && t < |m.q.th| && OnlyThread(m, m', t)
    requires !m.q.th[t].EnqAdvance? && !m.q.th[t].DeqAdvance?
    requires ThreadOk(m'.q, m'.log, t)
    ensures Inv(m')
  {
    Preserved(m, m', t);
  }

  lemma Called(m: Run, m': Run, t: nat, op: Op)
    requires Inv(m) && t < |m.q.th| && m.q.th[t].Resting?
    requires m'.q == Goto(m.q, t, Begin(op))
    requires m'.log == m.log.(
      base := m.log.base[t := if op.Enq? then m.q.tail else m.q.head], trips := m.log.trips[t := 0], w := m'.log.w)
    requires m'.log.w == Fifo.Watched(Fifo.SetStatus(m.log.w.obj, t, Fifo.Pending(op)), m.log.w.seen - {t})
    ensures Inv(m')
  {
    assert ThreadOk(m.q, m.log, t);
    if op.Enq? {
      assert OthersFilled(m'.log, t);
    } else {
      assert OthersTook(m'.log, t);
    }
    assert ThreadOk(m'.q, m'.log, t);
    Quiet(m, m', t);
  }

  lemma Returned(m: Run, m': Run, t: nat)
    requires Inv(m) && t < |m.q.th| && m.q.th[t].Returning?
    requires m'.q == Goto(m.q, t, Resting)
    requires m'.log == m.log.(w := m'.log.w)
    requires m'.log.w == Fifo.Watched(Fifo.SetStatus(m.log.w.obj, t, Fifo.Idle), m.log.w.seen - {t})
    ensures Inv(m')
  {
    assert ThreadOk(m'.q, m'.log, t);
    Quiet(m, m', t);
  }

  /** A load that decides nothing. */
  lemma Loaded(m: Run, m': Run, t: nat)
    requires Inv(m) && t < |m.q.th| && m'.log == m.log
    requires match m.q.th[t]
      case EnqLoadTail(v) => m'.q == Goto(m.q, t, EnqLoadHead(v, m.q.tail))
      case DeqLoadHead => m'.q == Goto(m.q, t, DeqLoadTail(m.q.head))
      case DeqLoadSlot(h, u) => m'.q == Goto(m.q, t, DeqRecheck(h, u, m.q.buf[Slot(h, m.q.n)]))
      case _ => false
    ensures Inv(m')
  {
    assert ThreadOk(m.q, m.log, t);
    if m.q.th[t].DeqLoadSlot? {
      SlotLoaded(m, t);
    }
    assert ThreadOk(m'.q, m'.log, t);
    Quiet(m, m', t);
  }

  /** At an unpassed position below `tail`, a consumer sees its value or that it was just taken. */
  lemma SlotLoaded(m: Run, t: nat)
    requires Inv(m) && t < |m.q.th| && m.q.th[t].DeqLoadSlot?
    ensures var h := m.q.th[t].head;
      h == m.q.head && h < m.q.tail ==>
        var w := m.q.buf[Slot(h, m.q.n)];
        w == Value(m.log.vals[h]) || (w == Empty(Round(h, m.q.n) + 1) && h < |m.log.cons|)
  {
    var h := m.q.th[t].head;
    assert Slot(h + m.q.n, m.q.n) == Slot(h, m.q.n);
    assert Round(h + m.q.n, m.q.n) == Round(h, m.q.n) + 1;
  }

  /** The full (empty) test is decided by the load of `head` (`tail`), and is exact there. */
  lemma Tested(m: Run, m': Run, t: nat)
    requires Inv(m) && t < |m.q.th|
    requires m'.log == m.log.(w := m'.log.w) && m'.log.w.obj == m.log.w.obj && m.log.w.seen <= m'.log.w.seen
    requires match m.q.th[t]
      case EnqLoadHead(v, u) =>
        m'.q == Goto(m.q, t, EnqRecheck(v, u, m.q.head)) && (u >= m.q.head + m.q.n ==> t in m'.log.w.seen)
      case DeqLoadTail(h) =>
        m'.q == Goto(m.q, t, DeqLoadSlot(h, m.q.tail)) && (h >= m.q.tail ==> t in m'.log.w.seen)
      case _ => false
    ensures Inv(m')
  {
    assert ThreadOk(m.q, m.log, t);
    assert ThreadOk(m'.q, m'.log, t);
    Quiet(m, m', t);
  }

  lemma Rechecked(m: Run, m': Run, t: nat)
    requires Inv(m) && t < |m.q.th|
    requires match m.q.th[t]
      case EnqRecheck(v, u, h) =>
        if u != m.q.tail then
          m'.q == Goto(m.q, t, EnqLoadTail(v)) && m'.log == OnceMore(m.log, t)
        else
          && m'.log == m.log
          && m'.q == Goto(m.q, t, if u >= h + m.q.n then Returning(Fifo.WouldBlock) else EnqFill(v, u))
      case DeqRecheck(h, u, w) =>
        if h != m.q.head then
          m'.q == Goto(m.q, t, DeqLoadHead) && m'.log == OnceMore(m.log, t)
        else
          && m'.log == m.log
          && m'.q == Goto(m.q, t,
               if h >= u then Returning(Fifo.WouldBlock) else if w.Empty? then DeqHelp(h) else DeqTake(h, w.v))
      case _ => false
    ensures Inv(m')
  {
    var l := m.q.th[t];
    assert ThreadOk(m.q, m.log, t);
    if l.DeqRecheck? && l.head == m.q.head {
      forall p | l.head < p < |m.log.vals|
        ensures Slot(p, m.q.n) != Slot(l.head, m.q.n)
      {
        Apart(p, l.head, m.q.n);
      }
    }
    assert ThreadOk(m'.q, m'.log, t);
    Quiet(m, m', t);
  }

  // Steps that change a slot

  lemma FilledOthers(m: Run, m': Run, t: nat)
    requires Inv(m) && t < |m.q.th| && m.q.th[t].EnqFill? && Fills(m.q, t) && Fresh(m.q, Event(t, Fifo.Deq))
    requires m.q.th[t].tail == |m.log.vals|
    requires m'.q == m.q.(buf := m'.q.buf, th := m.q.th[t := EnqAdvance(m.q.th[t].v, m.q.th[t].tail)])
    requires m'.log == m.log.(vals := m.log.vals + [m.q.th[t].v], prod := m.log.prod + [t])
    requires Indices(m'.q, m'.log)
    ensures forall i :: 0 <= i < |m.q.th| && i != t ==> Same(m, m', i)
  {
  }

  lemma Filled(m: Run, m': Run, t: nat)
    requires Inv(m) && t < |m.q.th| && m.q.th[t].EnqFill? && Fills(m.q, t) && Fresh(m.q, Event(t, Fifo.Deq))
    requires var EnqFill(v, u) := m.q.th[t];
      && m'.q == Goto(m.q, t, EnqAdvance(v, u)).(buf := m.q.buf[Slot(u, m.q.n) := Value(v)])
      && m'.log == m.log.(vals := m.log.vals + [v], prod := m.log.prod + [t])
    ensures Inv(m')
  {
    var l := m.q.th[t];
    assert ThreadOk(m.q, m.log, t);
    FillAt(m.q.buf, m.q.n, |m.log.cons|, m.log.vals, l.tail);
    FillKeeps(m.q.buf, m.q.n, |m.log.cons|, m.log.vals, l.v);
    assert m'.log.vals[m'.q.head..m'.q.tail] == m.log.vals[m.q.head..m.q.tail];
    FilledOthers(m, m', t);
    assert ThreadOk(m'.q, m'.log, t);
    Preserved(m, m', t);
  }

  lemma FillMissed(m: Run, m': Run, t: nat)
    requires Inv(m) && t < |m.q.th| && m.q.th[t].EnqFill? && !Fills(m.q, t)
    requires m'.q == Goto(m.q, t, EnqHelp(m.q.th[t].v, m.q.th[t].tail)) && m'.log == m.log
    ensures Inv(m')
  {
    assert ThreadOk(m.q, m.log, t);
    FillAt(m.q.buf, m.q.n, |m.log.cons|, m.log.vals, m.q.th[t].tail);
    assert ThreadOk(m'.q, m'.log, t);
    Quiet(m, m', t);
  }

  /** The CAS on the bare value succeeds only at the position it was meant for. */
  lemma TakeAt(m: Run, t: nat)
    requires Inv(m) && t < |m.q.th| && m.q.th[t].DeqTake?
    ensures m.q.th[t].head <= |m.log.cons|
    ensures m.q.buf[Slot(m.q.th[t].head, m.q.n)] == Value(m.q.th[t].v) <==> m.q.th[t].head == |m.log.cons|
  {
    assert ThreadOk(m.q, m.log, t);
    if m.q.th[t].head < |m.log.cons| {
      var p := PassedSlot(m.q.buf, m.q.n, |m.log.cons|, m.log.vals, m.q.th[t].head);
    }
  }

  lemma Taken(m: Run, m': Run, t: nat)
    requires Inv(m) && t < |m.q.th| && m.q.th[t].DeqTake?
    requires var DeqTake(h, v) := m.q.th[t];
      && h == |m.log.cons|
      && m'.q == Goto(m.q, t, DeqAdvance(h, v)).(buf := m.q.buf[Slot(h, m.q.n) := Empty(Round(h, m.q.n) + 1)])
      && m'.log == m.log.(cons := m.log.cons + [t])
    ensures Inv(m')
  {
    assert ThreadOk(m.q, m.log, t);
    TakeKeeps(m.q.buf, m.q.n, |m.log.cons|, m.log.vals);
    assert ThreadOk(m'.q, m'.log, t);
    Preserved(m, m', t);
  }

  lemma TakeMissed(m: Run, m': Run, t: nat)
    requires Inv(m) && t < |m.q.th| && m.q.th[t].DeqTake? && m.q.th[t].head < |m.log.cons|
    requires m'.q == Goto(m.q, t, DeqHelp(m.q.th[t].head)) && m'.log == m.log
    ensures Inv(m')
  {
    assert ThreadOk(m.q, m.log, t);
    assert ThreadOk(m'.q, m'.log, t);
    Quiet(m, m', t);
  }

  // Steps that pass a position, for the thread itself or for another

  lemma TailPassesOthers(m: Run, m': Run, t: nat)
    requires Inv(m) && m.q.tail < |m.log.vals|
    requires Indices(m'.q, m'.log) && |m'.q.th| == |m.q.th|
    requires var x := m.log.prod[m.q.tail];
      && Fifo.WEnabled(m.log.w, Fifo.Effect(x))
      && m'.log.w == Fifo.WApply(m.log.w, Fifo.Effect(x))
    requires m'.q.tail == m.q.tail + 1 && m'.q.head == m.q.head && m'.log.vals == m.log.vals
    requires forall i :: 0 <= i < |m.q.th| && i != t ==>
      m'.q.th[i] == m.q.th[i] && m'.log.base[i] == m.log.base[i] && m'.log.trips[i] == m.log.trips[i]
    ensures forall i :: 0 <= i < |m.q.th| && i != t ==> Same(m, m', i)
  {
    assert ThreadOk(m.q, m.log, m.log.prod[m.q.tail]);
    forall i | 0 <= i < |m.q.th| && i != t
      ensures Same(m, m', i)
    {
      assert ThreadOk(m.q, m.log, i);
    }
  }

  lemma HeadPassesOthers(m: Run, m': Run, t: nat)
    requires Inv(m) && m.q.head < |m.log.cons|
    requires Indices(m'.q, m'.log) && |m'.q.th| == |m.q.th|
    requires var x := m.log.cons[m.q.head];
      && Fifo.WEnabled(m.log.w, Fifo.Effect(x))
      && m'.log.w == Fifo.WApply(m.log.w, Fifo.Effect(x))
    requires m'.q.head == m.q.head + 1 && m'.q.tail == m.q.tail && m'.log.vals == m.log.vals
    requires forall i :: 0 <= i < |m.q.th| && i != t ==>
      m'.q.th[i] == m.q.th[i] && m'.log.base[i] == m.log.base[i] && m'.log.trips[i] == m.log.trips[i]
    ensures forall i :: 0 <= i < |m.q.th| && i != t ==> Same(m, m', i)
  {
    assert ThreadOk(m.q, m.log, m.log.cons[m.q.head]);
    forall i | 0 <= i < |m.q.th| && i != t
      ensures Same(m, m', i)
    {
      assert ThreadOk(m.q, m.log, i);
    }
  }

  lemma TailPassed(m: Run, m': Run, t: nat)
    requires Inv(m) && t < |m.q.th| && m.q.tail < |m.log.prod|
    requires m.q.th[t].EnqAdvance? ==> m.q.th[t].tail == m.q.tail && m.log.prod[m.q.tail] == t
    requires !m.q.th[t].DeqAdvance?
    requires var x := m.log.prod[m.q.tail];
      && Fifo.WEnabled(m.log.w, Fifo.Effect(x))
      && m'.log.w == Fifo.WApply(m.log.w, Fifo.Effect(x))
    requires |m'.q.th| == |m.q.th| && m'.q == m.q.(tail := m.q.tail + 1, th := m.q.th[t := m'.q.th[t]])
    requires |m'.log.trips| == |m.q.th|
    requires m'.log == m.log.(w := m'.log.w, trips := m.log.trips[t := m'.log.trips[t]])
    requires Indices(m'.q, m'.log) && ThreadOk(m'.q, m'.log, t)
    ensures Inv(m')
  {
    assert ThreadOk(m.q, m.log, m.log.prod[m.q.tail]);
    assert m.log.vals[m.q.head..m.q.tail + 1] == m.log.vals[m.q.head..m.q.tail] + [m.log.vals[m.q.tail]];
    TailPassesOthers(m, m', t);
    Preserved(m, m', t);
  }

  /** `tail` passes its position in a step of thread `t`, which may be helping the owner. */
  lemma TailPasses(m: Run, m': Run, t: nat)
    requires Inv(m) && t < |m.q.th| && m.q.tail < |m.log.vals|
    requires var x := m.log.prod[m.q.tail];
      && Fifo.WEnabled(m.log.w, Fifo.Effect(x))
      && m'.log.w == Fifo.WApply(m.log.w, Fifo.Effect(x))
    requires match m.q.th[t]
      case EnqAdvance(_, u) => u == m.q.tail &&
        m'.q == Goto(m.q, t, Returning(Fifo.Ok)).(tail := u + 1) && m'.log == m.log.(w := m'.log.w)
      case EnqHelp(v, u) => u == m.q.tail &&
        m'.q == Goto(m.q, t, EnqLoadTail(v)).(tail := u + 1) && m'.log == OnceMore(m.log, t).(w := m'.log.w)
      case _ => false
    ensures Inv(m')
  {
    assert ThreadOk(m.q, m.log, m.log.prod[m.q.tail]) && ThreadOk(m.q, m.log, t);
    assert ThreadOk(m'.q, m'.log, t);
    TailPassed(m, m', t);
  }

  /** The position was already passed by a helper. */
  lemma TailKept(m: Run, m': Run, t: nat)
    requires Inv(m) && t < |m.q.th|
    requires match m.q.th[t]
      case EnqAdvance(_, u) => u != m.q.tail && m'.q == Goto(m.q, t, Returning(Fifo.Ok)) && m'.log == m.log
      case EnqHelp(v, u) => u != m.q.tail && m'.q == Goto(m.q, t, EnqLoadTail(v)) && m'.log == OnceMore(m.log, t)
      case _ => false
    ensures Inv(m')
  {
    assert ThreadOk(m.q, m.log, t);
    assert ThreadOk(m'.q, m'.log, t);
    Preserved(m, m', t);
  }

  lemma HeadPassed(m: Run, m': Run, t: nat)
    requires Inv(m) && t < |m.q.th| && m.q.head < |m.log.cons|
    requires m.q.th[t].DeqAdvance? ==> m.q.th[t].head == m.q.head && m.log.cons[m.q.head] == t
    requires !m.q.th[t].EnqAdvance?
    requires var x := m.log.cons[m.q.head];
      && Fifo.WEnabled(m.log.w, Fifo.Effect(x))
      && m'.log.w == Fifo.WApply(m.log.w, Fifo.Effect(x))
    requires |m'.q.th| == |m.q.th| && m'.q == m.q.(head := m.q.head + 1, th := m.q.th[t := m'.q.th[t]])
    requires |m'.log.trips| == |m.q.th|
    requires m'.log == m.log.(w := m'.log.w, trips := m.log.trips[t := m'.log.trips[t]])
    requires Indices(m'.q, m'.log) && ThreadOk(m'.q, m'.log, t)
    ensures Inv(m')
  {
    assert ThreadOk(m.q, m.log, m.log.cons[m.q.head]);
    assert m.log.vals[m.q.head..m.q.tail][1..] == m.log.vals[m.q.head + 1..m.q.tail];
    HeadPassesOthers(m, m', t);
    Preserved(m, m', t);
  }

  lemma HeadPasses(m: Run, m': Run, t: nat)
    requires Inv(m) && t < |m.q.th| && m.q.head < |m.log.cons|
    requires var x := m.log.cons[m.q.head];
      && Fifo.WEnabled(m.log.w, Fifo.Effect(x))
      && m'.log.w == Fifo.WApply(m.log.w, Fifo.Effect(x))
    requires match m.q.th[t]
      case DeqAdvance(h, v) => h == m.q.head &&
        m'.q == Goto(m.q, t, Returning(Fifo.Got(v))).(head := h + 1) && m'.log == m.log.(w := m'.log.w)
      case DeqHelp(h) => h == m.q.head &&
        m'.q == Goto(m.q, t, DeqLoadHead).(head := h + 1) && m'.log == OnceMore(m.log, t).(w := m'.log.w)
      case _ => false
    ensures Inv(m')
  {
    assert ThreadOk(m.q, m.log, m.log.cons[m.q.head]) && ThreadOk(m.q, m.log, t);
    assert ThreadOk(m'.q, m'.log, t);
    HeadPassed(m, m', t);
  }

  lemma HeadKept(m: Run, m': Run, t: nat)
    requires Inv(m) && t < |m.q.th|
    requires match m.q.th[t]
      case DeqAdvance(h, v) => h != m.q.head && m'.q == Goto(m.q, t, Returning(Fifo.Got(v))) && m'.log == m.log
      case DeqHelp(h) => h != m.q.head && m'.q == Goto(m.q, t, DeqLoadHead) && m'.log == OnceMore(m.log, t)
      case _ => false
    ensures Inv(m')
  {
    assert ThreadOk(m.q, m.log, t);
    assert ThreadOk(m'.q, m'.log, t);
    Preserved(m, m', t);
  }

  // Putting the steps together

  lemma LoadStep(m: Run, e: Event)
    requires Inv(m) && e.t < |m.q.th|
    requires match m.q.th[e.t]
      case Resting | Returning(_) | EnqLoadTail(_) | DeqLoadHead | DeqLoadSlot(_, _) => true
      case _ => false
    ensures Inv(Next(m, e))
  {
    StepEnabled(m, e);
    var m' := Next(m, e);
    match m.q.th[e.t] {
      case Resting => Called(m, m', e.t, e.op);
      case Returning(_) => Returned(m, m', e.t);
      case _ => Loaded(m, m', e.t);
    }
  }

  lemma TestStep(m: Run, e: Event)
    requires Inv(m) && e.t < |m.q.th|
    requires match m.q.th[e.t]
      case EnqLoadHead(_, _) | DeqLoadTail(_) | EnqRecheck(_, _, _) | DeqRecheck(_, _, _) => true
      case _ => false
    ensures Inv(Next(m, e))
  {
    StepEnabled(m, e);
    var m' := Next(m, e);
    if m.q.th[e.t].EnqRecheck? || m.q.th[e.t].DeqRecheck? {
      Rechecked(m, m', e.t);
    } else {
      Tested(m, m', e.t);
    }
  }

  lemma SlotStep(m: Run, e: Event)
    requires Inv(m) && e.t < |m.q.th| && Fresh(m.q, e)
    requires m.q.th[e.t].EnqFill? || m.q.th[e.t].DeqTake?
    ensures Inv(Next(m, e))
  {
    var m' := Next(m, e);
    if m.q.th[e.t].EnqFill? {
      if Fills(m.q, e.t) { Filled(m, m', e.t); } else { FillMissed(m, m', e.t); }
    } else {
      TakeAt(m, e.t);
      if m.q.th[e.t].head == |m.log.cons| { Taken(m, m', e.t); } else { TakeMissed(m, m', e.t); }
    }
  }

  lemma TailStep(m: Run, e: Event)
    requires Inv(m) && e.t < |m.q.th|
    requires m.q.th[e.t].EnqAdvance? || m.q.th[e.t].EnqHelp?
    ensures Inv(Next(m, e))
  {
    StepEnabled(m, e);
    var m' := Next(m, e);
    if m.q.th[e.t].tail == m.q.tail { TailPasses(m, m', e.t); } else { TailKept(m, m', e.t); }
  }

  lemma HeadStep(m: Run, e: Event)
    requires Inv(m) && e.t < |m.q.th|
    requires m.q.th[e.t].DeqAdvance? || m.q.th[e.t].DeqHelp?
    ensures Inv(Next(m, e))
  {
    StepEnabled(m, e);
    var m' := Next(m, e);
    if m.q.th[e.t].head == m.q.head { HeadPasses(m, m', e.t); } else { HeadKept(m, m', e.t); }
  }

  /** Every step of every thread keeps the invariant. */
  lemma StepInv(m: Run, e: Event)
    requires Inv(m) && Fresh(m.q, e)
    ensures Inv(Next(m, e))
  {
    if e.t < |m.q.th| {
      match m.q.th[e.t] {
        case EnqLoadHead(_, _) | DeqLoadTail(_) | EnqRecheck(_, _, _) | DeqRecheck(_, _, _) => TestStep(m, e);
        case EnqFill(_, _) | DeqTake(_, _) => SlotStep(m, e);
        case EnqAdvance(_, _) | EnqHelp(_, _) => TailStep(m, e);
        case DeqAdvance(_, _) | DeqHelp(_) => HeadStep(m, e);
        case _ => LoadStep(m, e);
      }
    }
  }

  /** Every step is a step of the abstract bounded FIFO: its meaning is enabled there. */
  lemma StepEnabled(m: Run, e: Event)
    requires Inv(m)
    ensures Fifo.WEnabled(m.log.w, Meaning(m, e))
    ensures e.t < |m.q.th| && (m.q.th[e.t].EnqAdvance? || m.q.th[e.t].EnqHelp?) ==> m.q.th[e.t].tail < |m.log.prod|
    ensures e.t < |m.q.th| && (m.q.th[e.t].DeqAdvance? || m.q.th[e.t].DeqHelp?) ==> m.q.th[e.t].head < |m.log.cons|
  {
    if e.t < |m.q.th| {
      assert ThreadOk(m.q, m.log, e.t);
      if m.q.tail < |m.log.prod| {
        assert ThreadOk(m.q, m.log, m.log.prod[m.q.tail]);
      }
      if m.q.head < |m.log.cons| {
        assert ThreadOk(m.q, m.log, m.log.cons[m.q.head]);
      }
    }
  }

  // Theorems over every schedule

  lemma {:induction false} RunInv(m: Run, sched: seq<Event>)
    requires Inv(m) && FreshRun(m.q, sched)
    ensures Inv(Final(m, sched))
    ensures Fifo.WLegal(m.log.w, Meanings(m, sched))
    ensures Fifo.Visibles(Meanings(m, sched)) == Trace(m.q, sched)
    decreases sched
  {
    if sched == [] {
    } else {
      var e, rest := sched[0], sched[1..];
      StepInv(m, e);
      StepEnabled(m, e);
      StepShown(m, e);
      RunInv(Next(m, e), rest);
      assert Meanings(m, sched)[1..] == Meanings(Next(m, e), rest);
    }
  }

  lemma StepShown(m: Run, e: Event)
    requires Wf(m.q) && Fifo.WEnabled(m.log.w, Meaning(m, e))
    ensures Shown(m.q, e) == if Fifo.Visible(Meaning(m, e)) then [Meaning(m, e)] else []
    ensures e.t < |m.q.th| ==> Next(m, e).log.w == Fifo.WApply(m.log.w, Meaning(m, e))
    ensures e.t >= |m.q.th| ==> Meaning(m, e) == Fifo.Tau && Next(m, e) == m
  {
  }

  /**
   MPMCCompactIndirect is linearizable to a FIFO bounded by `n`, for any number of threads
   and every interleaving in which no value is stored over a consumer that still expects it.
   */
  lemma Linearizable(n: nat, threads: nat, sched: seq<Event>)
    requires n > 0 && FreshRun(New(n, threads), sched)
    ensures Fifo.Linearizable(n, threads, Trace(New(n, threads), sched))
  {
    StartInv(n, threads);
    RunInv(Start(n, threads), sched);
    Fifo.WatchedLinearizable(n, threads, Meanings(Start(n, threads), sched));
  }

  /** A thread goes round its loop again only after its index moved past what it had loaded. */
  lemma LoopProgress(m: Run, e: Event)
    requires Inv(m) && e.t < |m.q.th| && LoopsAgain(m.q.th[e.t], Next(m, e).q.th[e.t])
    ensures Enqueuing(m.q.th[e.t]) ==> Next(m, e).q.tail > m.q.th[e.t].tail
    ensures Dequeuing(m.q.th[e.t]) ==> Next(m, e).q.head > m.q.th[e.t].head
  {
    assert ThreadOk(m.q, m.log, e.t);
  }

  /**
   Lock-freedom: in every reachable state, a call that has gone round its loop `k` times
   has seen its index advance at least `k` times since it began, each time for the
   operation of another thread.
   */
  lemma LockFree(n: nat, threads: nat, sched: seq<Event>, t: nat)
    requires n > 0 && t < threads && FreshRun(New(n, threads), sched)
    ensures var m := Final(Start(n, threads), sched);
      && Inv(m)
      && (Enqueuing(m.q.th[t]) ==>
            && m.log.trips[t] <= m.q.tail - m.log.base[t]
            && forall p :: m.log.base[t] <= p < m.q.tail ==> m.log.prod[p] != t)
      && (Dequeuing(m.q.th[t]) ==>
            && m.log.trips[t] <= m.q.head - m.log.base[t]
            && forall p :: m.log.base[t] <= p < m.q.head ==> m.log.cons[p] != t)
  {
    StartInv(n, threads);
    RunInv(Start(n, threads), sched);
    var m := Final(Start(n, threads), sched);
    assert ThreadOk(m.q, m.log, t);
  }
}
