/**
 MPMCSeq: exclusive ownership of slots, index bounds and value integrity under every
 interleaving of any number of threads.
 */
module MPMCSeqProof {
  import opened Ring
  import opened MPMCSeq
  import Fifo = BoundedFifo

  // The invariant

  ghost predicate Indices(q: Queue, log: Log) {
    && Wf(q) && q.n >= 2
    && q.head <= q.tail <= q.head + q.n
    && |log.vals| == q.tail && |log.prod| == q.tail && |log.cons| == q.head
  }

  predicate Writes(l: Local, p: nat) {
    (l.EnqWrite? || l.EnqPublish?) && l.tail == p
  }

  predicate Reads(l: Local, p: nat) {
    (l.DeqRead? || l.DeqClear? || l.DeqRelease?) && l.head == p
  }

  /** A claimed position is published with its value, or its producer is about to publish it. */
  ghost predicate ClaimedOk(q: Queue, log: Log, p: nat)
    requires Indices(q, log) && q.head <= p < q.tail
  {
    || (Num(q, p) == p + 1 && Data(q, p) == log.vals[p])
    || (Num(q, p) == p && log.prod[p] < |q.th| && Writes(q.th[log.prod[p]], p))
  }

  /** An unclaimed slot is free for its next position, or its last consumer is about to free it. */
  ghost predicate FreeOk(q: Queue, log: Log, p: nat)
    requires Indices(q, log) && q.tail <= p < q.head + q.n
  {
    || (Num(q, p) == p && Data(q, p) == 0)
    || (p >= q.n && Num(q, p) == p - q.n + 1 && log.cons[p - q.n] < |q.th| && Reads(q.th[log.cons[p - q.n]], p - q.n))
  }

  ghost predicate LocalOk(q: Queue, log: Log, i: nat)
    requires Indices(q, log) && i < |q.th|
  {
    match q.th[i]
    case EnqLoadNum(_, tail) => tail <= q.tail
    case EnqClaim(_, tail) => tail <= q.tail && (tail == q.tail ==> tail < q.head + q.n && Num(q, tail) == tail)
    case EnqWrite(v, tail) =>
      q.head <= tail < q.tail && log.prod[tail] == i && log.vals[tail] == v && Num(q, tail) == tail
    case EnqPublish(v, tail) =>
      && q.head <= tail < q.tail && log.prod[tail] == i && log.vals[tail] == v && Num(q, tail) == tail
      && Data(q, tail) == v
    case DeqLoadNum(head) => head <= q.head
    case DeqClaim(head) => head <= q.head && (head == q.head ==> head < q.tail && Num(q, head) == head + 1)
    case DeqRead(head) =>
      && head < q.head && q.tail <= head + q.n && log.cons[head] == i && Num(q, head) == head + 1
      && head !in log.got && Data(q, head) == log.vals[head]
    case DeqClear(head, v) =>
      && head < q.head && q.tail <= head + q.n && log.cons[head] == i && Num(q, head) == head + 1
      && head !in log.got && v == log.vals[head]
    case DeqRelease(head, v) =>
      && head < q.head && q.tail <= head + q.n && log.cons[head] == i && Num(q, head) == head + 1
      && head !in log.got && v == log.vals[head] && Data(q, head) == 0
    case _ => true
  }

  ghost predicate GotOk(q: Queue, log: Log)
    requires Indices(q, log)
  {
    forall p :: p in log.got ==> p < q.head && log.got[p] == log.vals[p]
  }

  ghost predicate Inv(m: Run) {
    && Indices(m.q, m.log) && GotOk(m.q, m.log)
    && (forall p :: m.q.head <= p < m.q.tail ==> ClaimedOk(m.q, m.log, p))
    && (forall p :: m.q.tail <= p < m.q.head + m.q.n ==> FreeOk(m.q, m.log, p))
    && (forall i :: 0 <= i < |m.q.th| ==> LocalOk(m.q, m.log, i))
  }

  lemma StartInv(n: nat, threads: nat)
    requires n >= 2
    ensures Inv(Start(n, threads))
  {
  }

  /** What a producer that loaded `tail = t` can find: old numbers only where a slot is not yet freed. */
  lemma ProducerSees(m: Run, t: nat)
    requires Inv(m) && t <= m.q.tail
    ensures Num(m.q, t) == t && t == m.q.tail ==> t < m.q.head + m.q.n
    ensures Num(m.q, t) < t <==>
      t == m.q.tail && t >= m.q.n && (t == m.q.head + m.q.n || Num(m.q, t) == t - m.q.n + 1)
  {
    if t < m.q.head {
      var p := Later(t, m.q.head, m.q.n);
      assert if p < m.q.tail then ClaimedOk(m.q, m.log, p) else FreeOk(m.q, m.log, p);
    } else if t < m.q.tail {
      assert ClaimedOk(m.q, m.log, t);
    } else if t < m.q.head + m.q.n {
      assert FreeOk(m.q, m.log, t);
    } else {
      assert Slot(t, m.q.n) == Slot(m.q.head, m.q.n);
      assert ClaimedOk(m.q, m.log, m.q.head);
    }
  }

  /** What a consumer that loaded `head = h` can find: old numbers only where nothing is published. */
  lemma ConsumerSees(m: Run, h: nat)
    requires Inv(m) && h <= m.q.head
    ensures Num(m.q, h) == h + 1 && h == m.q.head ==> h < m.q.tail
    ensures Num(m.q, h) < h + 1 <==> h == m.q.head && (h == m.q.tail || Num(m.q, h) == h)
  {
    if h < m.q.head {
      var p := Later(h, m.q.head, m.q.n);
      assert if p < m.q.tail then ClaimedOk(m.q, m.log, p) else FreeOk(m.q, m.log, p);
    } else if h < m.q.tail {
      assert ClaimedOk(m.q, m.log, h);
    } else {
      assert FreeOk(m.q, m.log, h);
    }
  }

  // Steps

  /** Thread `t` moved without touching memory. */
  lemma Moved(m: Run, m': Run, t: nat)
    requires Inv(m) && t < |m.q.th| && |m'.q.th| == |m.q.th| && m'.log == m.log
    requires m'.q == m.q.(th := m.q.th[t := m'.q.th[t]])
    requires forall p :: Writes(m.q.th[t], p) ==> Writes(m'.q.th[t], p)
    requires forall p :: Reads(m.q.th[t], p) ==> Reads(m'.q.th[t], p)
    requires LocalOk(m'.q, m'.log, t)
    ensures Inv(m')
  {
    forall p | m'.q.head <= p < m'.q.tail ensures ClaimedOk(m'.q, m'.log, p) {
      assert ClaimedOk(m.q, m.log, p);
    }
    forall p | m'.q.tail <= p < m'.q.head + m'.q.n ensures FreeOk(m'.q, m'.log, p) {
      assert FreeOk(m.q, m.log, p);
    }
    forall i | 0 <= i < |m'.q.th| ensures LocalOk(m'.q, m'.log, i) {
      assert LocalOk(m.q, m.log, i);
    }
  }

  lemma TailClaimed(m: Run, m': Run, t: nat, v: nat)
    requires Inv(m) && t < |m.q.th| && m.q.th[t] == EnqClaim(v, m.q.tail)
    requires m'.q == Goto(m.q, t, EnqWrite(v, m.q.tail)).(tail := m.q.tail + 1)
    requires m'.log == m.log.(vals := m.log.vals + [v], prod := m.log.prod + [t])
    ensures Inv(m')
  {
    assert LocalOk(m.q, m.log, t);
    forall p | m'.q.head <= p < m'.q.tail ensures ClaimedOk(m'.q, m'.log, p) {
      assert p < m.q.tail ==> ClaimedOk(m.q, m.log, p);
    }
    forall p | m'.q.tail <= p < m'.q.head + m'.q.n ensures FreeOk(m'.q, m'.log, p) {
      assert FreeOk(m.q, m.log, p);
    }
    TailClaimedThreads(m, m', t, v);
  }

  lemma TailClaimedThreads(m: Run, m': Run, t: nat, v: nat)
    requires Inv(m) && t < |m.q.th| && m.q.th[t] == EnqClaim(v, m.q.tail)
    requires m'.q == Goto(m.q, t, EnqWrite(v, m.q.tail)).(tail := m.q.tail + 1)
    requires m'.log == m.log.(vals := m.log.vals + [v], prod := m.log.prod + [t])
    ensures Indices(m'.q, m'.log) && forall i :: 0 <= i < |m'.q.th| ==> LocalOk(m'.q, m'.log, i)
  {
    assert LocalOk(m.q, m.log, t);
    forall i | 0 <= i < |m'.q.th| ensures LocalOk(m'.q, m'.log, i) {
      assert LocalOk(m.q, m.log, i);
      var l := m.q.th[i];
      if i != t && (l.DeqRead? || l.DeqClear? || l.DeqRelease?) && m.q.tail == l.head + m.q.n {
        assert Slot(m.q.tail, m.q.n) == Slot(m.q.th[i].head, m.q.n);
      }
    }
  }

  lemma HeadClaimed(m: Run, m': Run, t: nat)
    requires Inv(m) && t < |m.q.th| && m.q.th[t] == DeqClaim(m.q.head)
    requires m'.q == Goto(m.q, t, DeqRead(m.q.head)).(head := m.q.head + 1)
    requires m'.log == m.log.(cons := m.log.cons + [t])
    ensures Inv(m')
  {
    assert LocalOk(m.q, m.log, t);
    assert ClaimedOk(m.q, m.log, m.q.head);
    var h := m.q.head;
    assert Slot(h + m.q.n, m.q.n) == Slot(h, m.q.n);
    forall p | m'.q.head <= p < m'.q.tail ensures ClaimedOk(m'.q, m'.log, p) {
      assert ClaimedOk(m.q, m.log, p);
    }
    forall p | m'.q.tail <= p < m'.q.head + m'.q.n ensures FreeOk(m'.q, m'.log, p) {
      assert p < h + m.q.n ==> FreeOk(m.q, m.log, p);
    }
    HeadClaimedThreads(m, m', t);
  }

  lemma HeadClaimedThreads(m: Run, m': Run, t: nat)
    requires Inv(m) && t < |m.q.th| && m.q.head < m.q.tail && Num(m.q, m.q.head) == m.q.head + 1
    requires Data(m.q, m.q.head) == m.log.vals[m.q.head]
    requires m'.q == Goto(m.q, t, DeqRead(m.q.head)).(head := m.q.head + 1)
    requires m'.log == m.log.(cons := m.log.cons + [t])
    ensures forall i :: 0 <= i < |m'.q.th| ==> LocalOk(m'.q, m'.log, i)
  {
    forall i | 0 <= i < |m'.q.th| ensures LocalOk(m'.q, m'.log, i) {
      assert LocalOk(m.q, m.log, i);
    }
  }

  predicate Touches(l: Local, p: nat) {
    Writes(l, p) || Reads(l, p)
  }

  /** Positions whose slot thread `i` relies on. */
  predicate Relies(q: Queue, i: nat, r: nat)
    requires i < |q.th|
  {
    || Touches(q.th[i], r)
    || (q.th[i].EnqClaim? && q.th[i].tail == r == q.tail)
    || (q.th[i].DeqClaim? && q.th[i].head == r == q.head)
  }

  /** A slot that a thread writes or reads is not one that any other thread relies on. */
  lemma Elsewhere(m: Run, t: nat, p: nat, i: nat, r: nat)
    requires Inv(m) && t < |m.q.th| && i < |m.q.th| && i != t && Touches(m.q.th[t], p) && Relies(m.q, i, r)
    ensures Slot(r, m.q.n) != Slot(p, m.q.n)
  {
    assert LocalOk(m.q, m.log, t) && LocalOk(m.q, m.log, i);
    if Slot(r, m.q.n) == Slot(p, m.q.n) && r != p {
      if r < p { SameSlot(r, p, m.q.n); } else { SameSlot(p, r, m.q.n); }
    }
  }

  /** Thread `t` changed only the slot of position `p`, which it owns. */
  ghost predicate OnlySlot(m: Run, m': Run, t: nat, p: nat) {
    && Inv(m) && Indices(m'.q, m'.log) && t < |m.q.th| && |m'.q.th| == |m.q.th| && Touches(m.q.th[t], p)
    && m'.q == m.q.(nums := m'.q.nums, data := m'.q.data, th := m.q.th[t := m'.q.th[t]])
    && (forall j :: 0 <= j < m.q.n && j != Slot(p, m.q.n) ==>
          m'.q.nums[j] == m.q.nums[j] && m'.q.data[j] == m.q.data[j])
    && m'.log.vals == m.log.vals && m'.log.prod == m.log.prod && m'.log.cons == m.log.cons
    && (forall r :: r != p ==> (r in m'.log.got <==> r in m.log.got))
  }

  lemma OtherThread(m: Run, m': Run, t: nat, p: nat, i: nat)
    requires OnlySlot(m, m', t, p) && i < |m.q.th| && i != t
    ensures LocalOk(m'.q, m'.log, i)
  {
    assert LocalOk(m.q, m.log, i);
    forall r | Relies(m.q, i, r)
      ensures Num(m'.q, r) == Num(m.q, r) && Data(m'.q, r) == Data(m.q, r) && r != p
    {
      Elsewhere(m, t, p, i, r);
    }
    var l := m.q.th[i];
    if l.EnqWrite? || l.EnqPublish? || (l.EnqClaim? && l.tail == m.q.tail) {
      assert Relies(m.q, i, l.tail);
    } else if l.DeqRead? || l.DeqClear? || l.DeqRelease? || (l.DeqClaim? && l.head == m.q.head) {
      assert Relies(m.q, i, l.head);
    }
  }

  lemma OtherThreads(m: Run, m': Run, t: nat, p: nat)
    requires OnlySlot(m, m', t, p) && LocalOk(m'.q, m'.log, t)
    ensures forall i :: 0 <= i < |m'.q.th| ==> LocalOk(m'.q, m'.log, i)
  {
    forall i | 0 <= i < |m'.q.th| ensures LocalOk(m'.q, m'.log, i) {
      if i != t {
        OtherThread(m, m', t, p, i);
      }
    }
  }

  /** Less than two rings ahead, only one later position shares the slot of `p`. */
  lemma NotNext(p: nat, r: nat, n: nat)
    requires n > 0 && p < r < p + 2 * n && r != p + n
    ensures Slot(p, n) != Slot(r, n)
  {
    if r < p + n {
      Apart(p, r, n);
    } else {
      Apart(p + n, r, n);
    }
  }

  /** The slots of the other positions are as they were. */
  lemma OtherSlots(m: Run, m': Run, t: nat, p: nat)
    requires OnlySlot(m, m', t, p)
    ensures forall r :: m.q.head <= r < m.q.tail && r != p ==> ClaimedOk(m'.q, m'.log, r)
    ensures forall r :: m.q.tail <= r < m.q.head + m.q.n && r != p + m.q.n ==> FreeOk(m'.q, m'.log, r)
  {
    assert LocalOk(m.q, m.log, t);
    forall r | m.q.head <= r < m.q.tail && r != p ensures ClaimedOk(m'.q, m'.log, r) {
      assert ClaimedOk(m.q, m.log, r);
      Apart(r, p, m.q.n);
    }
    forall r | m.q.tail <= r < m.q.head + m.q.n && r != p + m.q.n ensures FreeOk(m'.q, m'.log, r) {
      assert FreeOk(m.q, m.log, r);
      NotNext(p, r, m.q.n);
    }
  }

  lemma Wrote(m: Run, m': Run, t: nat)
    requires Inv(m) && t < |m.q.th| && m.q.th[t].EnqWrite? && m'.log == m.log
    requires var EnqWrite(v, p) := m.q.th[t]; m'.q == SetData(Goto(m.q, t, EnqPublish(v, p)), p, v)
    ensures Inv(m')
  {
    var p := m.q.th[t].tail;
    assert LocalOk(m.q, m.log, t);
    OtherThreads(m, m', t, p);
    OtherSlots(m, m', t, p);
    assert ClaimedOk(m'.q, m'.log, p);
  }

  lemma Published(m: Run, m': Run, t: nat)
    requires Inv(m) && t < |m.q.th| && m.q.th[t].EnqPublish? && m'.log == m.log
    requires var p := m.q.th[t].tail; m'.q == SetNum(Goto(m.q, t, Returning(Fifo.Ok)), p, p + 1)
    ensures Inv(m')
  {
    var p := m.q.th[t].tail;
    assert LocalOk(m.q, m.log, t);
    OtherThreads(m, m', t, p);
    OtherSlots(m, m', t, p);
    assert ClaimedOk(m'.q, m'.log, p);
  }

  lemma Cleared(m: Run, m': Run, t: nat)
    requires Inv(m) && t < |m.q.th| && m.q.th[t].DeqClear? && m'.log == m.log
    requires var DeqClear(p, v) := m.q.th[t]; m'.q == SetData(Goto(m.q, t, DeqRelease(p, v)), p, 0)
    ensures Inv(m')
  {
    var p := m.q.th[t].head;
    assert LocalOk(m.q, m.log, t);
    OtherThreads(m, m', t, p);
    OtherSlots(m, m', t, p);
    if p + m.q.n < m.q.head + m.q.n {
      assert Slot(p + m.q.n, m.q.n) == Slot(p, m.q.n);
      assert FreeOk(m'.q, m'.log, p + m.q.n);
    }
  }

  lemma Released(m: Run, m': Run, t: nat)
    requires Inv(m) && t < |m.q.th| && m.q.th[t].DeqRelease?
    requires var DeqRelease(p, v) := m.q.th[t];
      && m'.q == SetNum(Goto(m.q, t, Returning(Fifo.Got(v))), p, p + m.q.n)
      && m'.log == m.log.(got := m.log.got[p := v])
    ensures Inv(m')
  {
    var p := m.q.th[t].head;
    assert LocalOk(m.q, m.log, t);
    OtherThreads(m, m', t, p);
    OtherSlots(m, m', t, p);
    assert Slot(p + m.q.n, m.q.n) == Slot(p, m.q.n);
    assert FreeOk(m'.q, m'.log, p + m.q.n);
  }

  lemma MoveStep(m: Run, e: Event)
    requires Inv(m) && e.t < |m.q.th|
    requires match m.q.th[e.t]
      case EnqWrite(_, _) | EnqPublish(_, _) | DeqClear(_, _) | DeqRelease(_, _) => false
      case EnqClaim(_, tail) => tail != m.q.tail
      case DeqClaim(head) => head != m.q.head
      case _ => true
    ensures Inv(Next(m, e))
  {
    var m' := Next(m, e);
    assert LocalOk(m.q, m.log, e.t);
    match m.q.th[e.t] {
      case EnqLoadNum(_, tail) => ProducerSees(m, tail);
      case DeqLoadNum(head) => ConsumerSees(m, head);
      case _ =>
    }
    assert LocalOk(m'.q, m'.log, e.t);
    Moved(m, m', e.t);
  }

  /** Every step of every thread keeps the invariant. */
  lemma StepInv(m: Run, e: Event)
    requires Inv(m)
    ensures Inv(Next(m, e))
  {
    if e.t < |m.q.th| {
      var m', t := Next(m, e), e.t;
      match m.q.th[t] {
        case EnqClaim(v, tail) => if tail == m.q.tail { TailClaimed(m, m', t, v); } else { MoveStep(m, e); }
        case EnqWrite(_, _) => Wrote(m, m', t);
        case EnqPublish(_, _) => Published(m, m', t);
        case DeqClaim(head) => if head == m.q.head { HeadClaimed(m, m', t); } else { MoveStep(m, e); }
        case DeqClear(_, _) => Cleared(m, m', t);
        case DeqRelease(_, _) => Released(m, m', t);
        case _ => MoveStep(m, e);
      }
    }
  }

  lemma {:induction false} RunInv(m: Run, sched: seq<Event>)
    requires Inv(m)
    ensures Inv(Final(m, sched))
    decreases sched
  {
    if sched == [] {
    } else {
      StepInv(m, sched[0]);
      RunInv(Next(m, sched[0]), sched[1..]);
    }
  }

  // Theorems over every schedule

  predicate Accesses(l: Local) {
    l.EnqWrite? || l.DeqRead? || l.DeqClear?
  }

  function Position(l: Local): nat
    requires Accesses(l)
  {
    if l.EnqWrite? then l.tail else l.head
  }

  /** No two threads are ever about to access the data of one slot. */
  lemma ExclusiveSlots(n: nat, threads: nat, sched: seq<Event>, i: nat, j: nat)
    requires n >= 2 && i < threads && j < threads && i != j
    ensures var q := Exec(New(n, threads), sched);
      Accesses(q.th[i]) && Accesses(q.th[j]) ==> Slot(Position(q.th[i]), n) != Slot(Position(q.th[j]), n)
  {
    StartInv(n, threads);
    RunInv(Start(n, threads), sched);
    var m := Final(Start(n, threads), sched);
    if Accesses(m.q.th[i]) && Accesses(m.q.th[j]) {
      Elsewhere(m, i, Position(m.q.th[i]), j, Position(m.q.th[j]));
    }
  }

  /** The indices stay within one ring of each other, and what is returned at a position was claimed for it. */
  lemma BoundsAndValues(n: nat, threads: nat, sched: seq<Event>)
    requires n >= 2
    ensures var m := Final(Start(n, threads), sched);
      && m.q.head <= m.q.tail <= m.q.head + n
      && |m.log.vals| == m.q.tail
      && forall p :: p in m.log.got ==> p < m.q.head && m.log.got[p] == m.log.vals[p]
  {
    StartInv(n, threads);
    RunInv(Start(n, threads), sched);
  }

  /** Every slot of the window `[tail, head + n)` is cleared and free, or its consumer has yet to release it. */
  lemma FreeSlotsCleared(n: nat, threads: nat, sched: seq<Event>, p: nat)
    requires n >= 2
    ensures var m := Final(Start(n, threads), sched);
      && Inv(m)
      && (m.q.tail <= p < m.q.head + n ==>
            || (Num(m.q, p) == p && Data(m.q, p) == 0)
            || (p >= n && m.log.cons[p - n] < threads && Reads(m.q.th[m.log.cons[p - n]], p - n)))
  {
    StartInv(n, threads);
    RunInv(Start(n, threads), sched);
    var m := Final(Start(n, threads), sched);
    assert m.q.tail <= p < m.q.head + n ==> FreeOk(m.q, m.log, p);
  }

  /** A Dequeue returns, once, the value its position was claimed with. */
  lemma DequeueExact(m: Run, e: Event)
    requires Inv(m) && e.t < |m.q.th| && m.q.th[e.t].DeqRelease?
    ensures var DeqRelease(p, v) := m.q.th[e.t];
      && p < |m.log.cons| && m.log.cons[p] == e.t && p !in m.log.got && p < |m.log.vals| && v == m.log.vals[p]
      && Next(m, e).q.th[e.t] == Returning(Fifo.Got(v)) && Next(m, e).log.got == m.log.got[p := v]
  {
    assert LocalOk(m.q, m.log, e.t);
  }

  /**
   What the refusals mean: Enqueue refuses exactly when the slot of `tail` is not free yet,
   Dequeue exactly when position `head` is not published yet.
   */
  lemma RefusalsExact(m: Run, e: Event)
    requires Inv(m) && e.t < |m.q.th|
    ensures m.q.th[e.t].EnqLoadNum? ==>
      (Next(m, e).q.th[e.t] == Returning(Fifo.WouldBlock) <==>
        && m.q.th[e.t].tail == m.q.tail >= m.q.n
        && (m.q.tail == m.q.head + m.q.n || Num(m.q, m.q.tail) == m.q.tail - m.q.n + 1))
    ensures m.q.th[e.t].DeqLoadNum? ==>
      (Next(m, e).q.th[e.t] == Returning(Fifo.WouldBlock) <==>
        && m.q.th[e.t].head == m.q.head
        && (m.q.head == m.q.tail || Num(m.q, m.q.head) == m.q.head))
  {
    assert LocalOk(m.q, m.log, e.t);
    match m.q.th[e.t] {
      case EnqLoadNum(_, tail) => ProducerSees(m, tail);
      case DeqLoadNum(head) => ConsumerSees(m, head);
      case _ =>
    }
  }
}
