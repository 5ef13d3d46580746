/**
 Safety of MPMCIndirect under every interleaving of any number of threads.
 */
module MPMCIndirectProof {
  import opened Ring
  import opened TwoLap
  import opened MPMCIndirect

  // The invariant

  /**
   Slot `j` serves one position: its tag is the cycle of that position while empty and the
   cycle plus one once that position is filled.
   */
  ghost predicate SlotOk(q: Queue, log: Log, j: nat)
    requires Wf(q) && |log.at| == 2 * q.n && j < 2 * q.n
  {
    var p, e := log.at[j], q.slots[j];
    && Place(p, q.n) == j && p < q.head + 2 * q.n
    && e == (if p in log.filled then Entry(Cycle(p, q.n) + 1, log.filled[p]) else Entry(Cycle(p, q.n), 0))
  }

  /** Producers claim distinct positions below `tail`, and all those from `head` on. */
  ghost predicate ClaimsOk(q: Queue, log: Log) {
    && (forall p :: p in log.prod ==> p < q.tail)
    && (forall p :: q.head <= p < q.tail ==> p in log.prod)
    && |log.cons| == q.head
  }

  /** Only claimed positions are filled, and a slot never serves them again once it moved on. */
  ghost predicate FilledOk(q: Queue, log: Log)
    requires Wf(q) && |log.at| == 2 * q.n
  {
    forall p :: p in log.filled ==> p in log.prod && p <= log.at[Place(p, q.n)]
  }

  /** What was returned at a position is what was stored there, and its slot has moved on. */
  ghost predicate GotOk(q: Queue, log: Log)
    requires Wf(q) && |log.at| == 2 * q.n
  {
    forall p :: p in log.got ==>
      p in log.filled && log.got[p] == log.filled[p] && p < q.head && p < log.at[Place(p, q.n)]
  }

  /** The entry thread `i` loaded is still there, or was replaced by one with a larger tag. */
  ghost predicate LoadOk(q: Queue, log: Log, i: nat, my: nat, e: Entry)
    requires WfLog(Run(q, log)) && i < |q.th|
  {
    var j := Place(my, q.n);
    && log.loaded[i] <= log.ver[j]
    && (if log.loaded[i] == log.ver[j] then q.slots[j] == e else q.slots[j].cycle > e.cycle)
  }

  ghost predicate Producer(log: Log, i: nat, my: nat) {
    my in log.prod && log.prod[my] == i && my !in log.filled
  }

  ghost predicate Consumer(log: Log, i: nat, my: nat) {
    my < |log.cons| && log.cons[my] == i && my !in log.got
  }

  ghost predicate LocalOk(q: Queue, log: Log, i: nat)
    requires WfLog(Run(q, log)) && i < |q.th|
  {
    match q.th[i]
    case EnqLoadSlot(_, my) => Producer(log, i, my)
    case EnqFill(_, my, val) => Producer(log, i, my) && LoadOk(q, log, i, my, Entry(Cycle(my, q.n), val))
    case EnqReset(v, my) => my in log.filled && log.filled[my] == v && my in log.prod && log.prod[my] == i
    case DeqLoadSlot(my) => Consumer(log, i, my)
    case DeqTake(my, val) => Consumer(log, i, my) && LoadOk(q, log, i, my, Entry(Cycle(my, q.n) + 1, val))
    case DeqRepair(my, c, val) =>
      Consumer(log, i, my) && c <= Cycle(my, q.n) && LoadOk(q, log, i, my, Entry(c, val))
    case DeqLoadTail(my) => my < q.head
    case CatchCas(tail, head) => tail < head <= q.head
    case _ => true
  }

  ghost predicate Inv(m: Run) {
    && WfLog(m) && ClaimsOk(m.q, m.log) && FilledOk(m.q, m.log) && GotOk(m.q, m.log)
    && (forall j :: 0 <= j < 2 * m.q.n ==> SlotOk(m.q, m.log, j))
    && (forall i :: 0 <= i < |m.q.th| ==> LocalOk(m.q, m.log, i))
  }

  lemma StartInv(n: nat, threads: nat)
    requires n > 0
    ensures Inv(Start(n, threads))
  {
  }

  // The threads that do not move

  /** Thread `t` moved: indices and history only grew, and replaced entries got larger tags. */
  ghost predicate Evolves(m: Run, m': Run, t: nat) {
    var q, q', log, log' := m.q, m'.q, m.log, m'.log;
    && WfLog(m) && WfLog(m') && q'.n == q.n && |q'.th| == |q.th|
    && q.head <= q'.head && log.cons <= log'.cons
    && (forall p :: p in log.prod ==> p in log'.prod && log'.prod[p] == log.prod[p])
    && (forall p :: p in log.filled ==> p in log'.filled && log'.filled[p] == log.filled[p])
    && (forall p :: p in log'.filled && p !in log.filled ==> p in log.prod && log.prod[p] == t)
    && (forall p :: p in log'.got && p !in log.got ==> p < |log.cons| && log.cons[p] == t)
    && (forall j :: 0 <= j < 2 * q.n ==>
          || (log'.ver[j] == log.ver[j] && q'.slots[j] == q.slots[j])
          || (log'.ver[j] > log.ver[j] && q'.slots[j].cycle > q.slots[j].cycle))
    && (forall i :: 0 <= i < |q.th| && i != t ==> q'.th[i] == q.th[i] && log'.loaded[i] == log.loaded[i])
  }

  lemma Undisturbed(m: Run, m': Run, t: nat, i: nat)
    requires Evolves(m, m', t) && i < |m.q.th| && i != t && LocalOk(m.q, m.log, i)
    ensures LocalOk(m'.q, m'.log, i)
  {
  }

  lemma OthersOk(m: Run, m': Run, t: nat)
    requires Inv(m) && Evolves(m, m', t) && t < |m.q.th| && LocalOk(m'.q, m'.log, t)
    ensures forall i :: 0 <= i < |m'.q.th| ==> LocalOk(m'.q, m'.log, i)
  {
    forall i | 0 <= i < |m'.q.th|
      ensures LocalOk(m'.q, m'.log, i)
    {
      if i != t {
        Undisturbed(m, m', t, i);
      }
    }
  }

  // Steps that leave slots, claims and history alone

  lemma Moved(m: Run, m': Run, t: nat)
    requires Inv(m) && t < |m.q.th| && |m'.q.th| == |m.q.th|
    requires m'.q == m.q.(threshold := m'.q.threshold, draining := m'.q.draining, th := m.q.th[t := m'.q.th[t]])
    requires |m'.log.loaded| == |m.q.th| && m'.log == m.log.(loaded := m.log.loaded[t := m'.log.loaded[t]])
    requires LocalOk(m'.q, m'.log, t)
    ensures Inv(m')
  {
    forall j | 0 <= j < 2 * m'.q.n
      ensures SlotOk(m'.q, m'.log, j)
    {
      assert SlotOk(m.q, m.log, j);
    }
    OthersOk(m, m', t);
  }

  // Claims

  lemma ProducerClaims(m: Run, m': Run, t: nat, v: nat)
    requires Inv(m) && t < |m.q.th| && m.q.th[t] == EnqClaim(v)
    requires m'.q == Goto(m.q, t, EnqLoadSlot(v, m.q.tail)).(tail := m.q.tail + 1)
    requires m'.log == m.log.(prod := m.log.prod[m.q.tail := t])
    ensures Inv(m')
  {
    assert m.q.tail !in m.log.prod;
    forall j | 0 <= j < 2 * m'.q.n
      ensures SlotOk(m'.q, m'.log, j)
    {
      assert SlotOk(m.q, m.log, j);
    }
    OthersOk(m, m', t);
  }

  lemma ConsumerClaims(m: Run, m': Run, t: nat)
    requires Inv(m) && t < |m.q.th| && m.q.th[t].DeqClaim?
    requires m'.q == Goto(m.q, t, DeqLoadSlot(m.q.head)).(head := m.q.head + 1)
    requires m'.log == m.log.(cons := m.log.cons + [t])
    ensures Inv(m')
  {
    assert m.q.head !in m.log.got;
    forall j | 0 <= j < 2 * m'.q.n
      ensures SlotOk(m'.q, m'.log, j)
    {
      assert SlotOk(m.q, m.log, j);
    }
    OthersOk(m, m', t);
  }

  /** Catching up moves `tail` forward, but never above `head`. */
  lemma CaughtUp(m: Run, m': Run, t: nat)
    requires Inv(m) && t < |m.q.th| && m.q.th[t].CatchCas? && m.q.tail == m.q.th[t].tail
    requires m'.q == Goto(m.q, t, DeqMiss).(tail := m.q.th[t].head) && m'.log == m.log
    ensures Inv(m') && m.q.tail < m'.q.tail <= m'.q.head
  {
    assert LocalOk(m.q, m.log, t);
    forall j | 0 <= j < 2 * m'.q.n
      ensures SlotOk(m'.q, m'.log, j)
    {
      assert SlotOk(m.q, m.log, j);
    }
    OthersOk(m, m', t);
  }

  // Steps that replace an entry

  /** A slot whose tag is the cycle of `my` is empty and serves `my`. */
  lemma ServesEmpty(m: Run, my: nat)
    requires Inv(m) && At(m.q, my).cycle == Cycle(my, m.q.n)
    ensures m.log.at[Place(my, m.q.n)] == my && my !in m.log.filled
  {
    var j := Place(my, m.q.n);
    assert SlotOk(m.q, m.log, j);
    TagOrder(my, m.log.at[j], m.q.n);
  }

  /** A slot whose tag is the cycle of `my` plus one holds what was stored at `my`. */
  lemma ServesFilled(m: Run, my: nat)
    requires Inv(m) && At(m.q, my).cycle == Cycle(my, m.q.n) + 1
    ensures m.log.at[Place(my, m.q.n)] == my && my in m.log.filled && m.log.filled[my] == At(m.q, my).val
  {
    var j := Place(my, m.q.n);
    assert SlotOk(m.q, m.log, j);
    TagOrder(my, m.log.at[j], m.q.n);
    TagOrder(m.log.at[j], my, m.q.n);
  }

  /** A slot whose tag is at most the cycle of `my` serves `my` or an earlier position. */
  lemma ServesEarlier(m: Run, my: nat)
    requires Inv(m) && At(m.q, my).cycle <= Cycle(my, m.q.n)
    ensures m.log.at[Place(my, m.q.n)] <= my
    ensures m.log.at[Place(my, m.q.n)] == my ==> my !in m.log.filled
  {
    var j := Place(my, m.q.n);
    assert SlotOk(m.q, m.log, j);
    TagOrder(m.log.at[j], my, m.q.n);
  }

  lemma Filled(m: Run, m': Run, t: nat)
    requires Inv(m) && t < |m.q.th| && m.q.th[t].EnqFill?
    requires var EnqFill(v, my, val) := m.q.th[t];
      && At(m.q, my) == Entry(Cycle(my, m.q.n), val)
      && m'.q == Put(Goto(m.q, t, EnqReset(v, my)), my, Entry(Cycle(my, m.q.n) + 1, v))
      && m'.log == Serve(m.log.(filled := m.log.filled[my := v]), Place(my, m.q.n), my)
    ensures Inv(m')
  {
    assert LocalOk(m.q, m.log, t);
    var my := m.q.th[t].my;
    ServesEmpty(m, my);
    forall j | 0 <= j < 2 * m'.q.n
      ensures SlotOk(m'.q, m'.log, j)
    {
      assert SlotOk(m.q, m.log, j);
    }
    OthersOk(m, m', t);
  }

  /** The slot of `my` moves on to the next lap. */
  lemma MovedOn(m: Run, m': Run, t: nat, my: nat)
    requires Inv(m) && t < |m.q.th| && my < m.q.head
    requires m.log.at[Place(my, m.q.n)] <= my
    requires At(m.q, my).cycle <= Cycle(my, m.q.n) + 1
    requires |m'.q.th| == |m.q.th|
    requires m'.q == Put(Goto(m.q, t, m'.q.th[t]), my, Entry(Cycle(my + 2 * m.q.n, m.q.n), 0))
    requires m'.log == Serve(m.log.(got := m'.log.got), Place(my, m.q.n), my + 2 * m.q.n)
    requires m'.log.got == m.log.got ||
      (m'.log.got == m.log.got[my := At(m.q, my).val] && m.log.cons[my] == t
       && my in m.log.filled && m.log.filled[my] == At(m.q, my).val)
    requires LocalOk(m'.q, m'.log, t)
    ensures Inv(m')
  {
    NextLap(my, m.q.n);
    assert my + 2 * m.q.n !in m.log.filled;
    SlotsMovedOn(m, m', my);
    OthersOk(m, m', t);
  }

  lemma SlotsMovedOn(m: Run, m': Run, my: nat)
    requires Inv(m) && my < m.q.head && WfLog(m') && m'.q.n == m.q.n && m'.q.head == m.q.head
    requires my + 2 * m.q.n !in m.log.filled
    requires var j := Place(my, m.q.n);
      && m'.q.slots == m.q.slots[j := Entry(Cycle(my + 2 * m.q.n, m.q.n), 0)]
      && m'.log.at == m.log.at[j := my + 2 * m.q.n] && m'.log.filled == m.log.filled
    ensures forall j :: 0 <= j < 2 * m'.q.n ==> SlotOk(m'.q, m'.log, j)
  {
    NextLap(my, m.q.n);
    forall j | 0 <= j < 2 * m'.q.n
      ensures SlotOk(m'.q, m'.log, j)
    {
      assert SlotOk(m.q, m.log, j);
    }
  }

  lemma LoadStep(m: Run, e: Event)
    requires Inv(m) && e.t < |m.q.th| && (m.q.th[e.t].EnqLoadSlot? || m.q.th[e.t].DeqLoadSlot?)
    ensures Inv(Next(m, e))
  {
    var m' := Next(m, e);
    assert LocalOk(m.q, m.log, e.t);
    assert LocalOk(m'.q, m'.log, e.t);
    Moved(m, m', e.t);
  }

  lemma TakeStep(m: Run, e: Event)
    requires Inv(m) && e.t < |m.q.th| && m.q.th[e.t].DeqTake?
    ensures Inv(Next(m, e))
  {
    var m', my := Next(m, e), m.q.th[e.t].my;
    assert LocalOk(m.q, m.log, e.t);
    if At(m.q, my) == Entry(Cycle(my, m.q.n) + 1, m.q.th[e.t].val) {
      ServesFilled(m, my);
      MovedOn(m, m', e.t, my);
    } else {
      Moved(m, m', e.t);
    }
  }

  lemma RepairStep(m: Run, e: Event)
    requires Inv(m) && e.t < |m.q.th| && m.q.th[e.t].DeqRepair?
    ensures Inv(Next(m, e))
  {
    var m', my := Next(m, e), m.q.th[e.t].my;
    assert LocalOk(m.q, m.log, e.t);
    if At(m.q, my) == Entry(m.q.th[e.t].cycle, m.q.th[e.t].val) {
      ServesEarlier(m, my);
      MovedOn(m, m', e.t, my);
    } else {
      Moved(m, m', e.t);
    }
  }

  lemma IndexStep(m: Run, e: Event)
    requires Inv(m) && e.t < |m.q.th|
    requires match m.q.th[e.t]
      case EnqClaim(_) | DeqClaim | CatchCas(_, _) => true
      case _ => false
    ensures Inv(Next(m, e))
  {
    var m', t := Next(m, e), e.t;
    match m.q.th[t] {
      case EnqClaim(v) => ProducerClaims(m, m', t, v);
      case DeqClaim => ConsumerClaims(m, m', t);
      case CatchCas(tail, _) => if m.q.tail == tail { CaughtUp(m, m', t); } else { Moved(m, m', t); }
    }
  }

  lemma OtherStep(m: Run, e: Event)
    requires Inv(m) && e.t < |m.q.th|
    requires match m.q.th[e.t]
      case EnqClaim(_) | DeqClaim | CatchCas(_, _) | EnqLoadSlot(_, _) | DeqLoadSlot(_) => false
      case EnqFill(_, _, _) | DeqTake(_, _) | DeqRepair(_, _, _) => false
      case _ => true
    ensures Inv(Next(m, e))
  {
    var m' := Next(m, e);
    assert LocalOk(m.q, m.log, e.t);
    assert LocalOk(m'.q, m'.log, e.t);
    Moved(m, m', e.t);
  }

  lemma FillStep(m: Run, e: Event)
    requires Inv(m) && e.t < |m.q.th| && m.q.th[e.t].EnqFill?
    ensures Inv(Next(m, e))
  {
    var m', l := Next(m, e), m.q.th[e.t];
    if At(m.q, l.my) == Entry(Cycle(l.my, m.q.n), l.val) { Filled(m, m', e.t); } else { Moved(m, m', e.t); }
  }

  /** Every step of every thread keeps the invariant. */
  lemma StepInv(m: Run, e: Event)
    requires Inv(m)
    ensures Inv(Next(m, e))
  {
    if e.t < |m.q.th| {
      match m.q.th[e.t] {
        case EnqClaim(_) | DeqClaim | CatchCas(_, _) => IndexStep(m, e);
        case EnqLoadSlot(_, _) | DeqLoadSlot(_) => LoadStep(m, e);
        case EnqFill(_, _, _) => FillStep(m, e);
        case DeqTake(_, _) => TakeStep(m, e);
        case DeqRepair(_, _, _) => RepairStep(m, e);
        case _ => OtherStep(m, e);
      }
    }
  }

  lemma {:induction false} RunInv(m: Run, sched: seq<Event>)
    requires Inv(m)
    ensures Inv(Final(m, sched))
    decreases sched
  {
    if sched == [] {
    } else {
      StepInv(m, sched[0]);
      RunInv(Next(m, sched[0]), sched[1..]);
    }
  }

  // Theorems over every schedule

  /**
   A stored item stays intact in its slot until a Dequeue claims its position: no repair,
   dequeue or later enqueue has touched the entry of a filled position that is not below
   `head`.
   */
  lemma ItemsIntact(n: nat, threads: nat, sched: seq<Event>, p: nat)
    requires n > 0
    ensures var m := Final(Start(n, threads), sched);
      p in m.log.filled && p >= m.q.head ==> At(m.q, p) == Entry(Cycle(p, n) + 1, m.log.filled[p])
  {
    StartInv(n, threads);
    RunInv(Start(n, threads), sched);
    var m := Final(Start(n, threads), sched);
    if p in m.log.filled && p >= m.q.head {
      Intact(m, p);
    }
  }

  lemma Intact(m: Run, p: nat)
    requires Inv(m) && p in m.log.filled && p >= m.q.head
    ensures At(m.q, p) == Entry(Cycle(p, m.q.n) + 1, m.log.filled[p])
  {
    var j := Place(p, m.q.n);
    assert SlotOk(m.q, m.log, j);
    Within(p, m.log.at[j], m.q.n);
  }

  /** A successful Dequeue returns, once, what the Enqueue at its position stored. */
  lemma DequeueExact(m: Run, e: Event)
    requires Inv(m) && e.t < |m.q.th| && !m.q.th[e.t].Returning? && Next(m, e).q.th[e.t].Returning?
    requires Next(m, e).q.th[e.t].res.Got?
    ensures var my, v := m.q.th[e.t].my, Next(m, e).q.th[e.t].res.v;
      && my < |m.log.cons| && m.log.cons[my] == e.t && my !in m.log.got
      && my in m.log.filled && m.log.filled[my] == v
      && Next(m, e).log.got == m.log.got[my := v]
  {
    assert LocalOk(m.q, m.log, e.t);
    ServesFilled(m, m.q.th[e.t].my);
  }

  /** An Enqueue returns Ok exactly when it has stored its value at the position it claimed. */
  lemma EnqueueExact(m: Run, e: Event)
    requires Inv(m) && e.t < |m.q.th|
    ensures var l, l' := m.q.th[e.t], Next(m, e).q.th[e.t];
      && (l'.EnqReset? && !l.EnqReset? ==>
            && l.EnqFill? && l'.v == l.v && Producer(m.log, e.t, l.my)
            && Next(m, e).log.filled == m.log.filled[l.my := l.v])
      && (!l'.EnqReset? ==> Next(m, e).log.filled == m.log.filled)
      && (l' == Returning(Ok) && !l.Returning? ==> l.EnqReset? && l.my in m.log.filled && m.log.filled[l.my] == l.v)
  {
    assert LocalOk(m.q, m.log, e.t);
  }

  /**
   What the refusals mean.  Enqueue refuses iff `tail` as loaded is `n` or more ahead of `head`,
   or the slot it claimed still serves an earlier position.  Dequeue refuses iff the threshold
   is negative when it starts, a miss has found no claim behind its own, or a counted miss has
   spent the threshold and the queue is not draining.
   */
  lemma RefusalsExact(m: Run, e: Event)
    requires Inv(m) && e.t < |m.q.th| && !m.q.th[e.t].Returning?
    ensures var l := m.q.th[e.t];
      Next(m, e).q.th[e.t] == Returning(WouldBlock) <==>
        || (l.EnqLoadHead? && l.tail >= m.q.head + m.q.n)
        || (l.EnqLoadSlot? && m.log.at[Place(l.my, m.q.n)] < l.my)
        || (l.DeqLoadThreshold? && m.q.threshold < 0)
        || l.DeqMiss?
        || (l.DeqRecheckDraining? && !m.q.draining)
  {
    if m.q.th[e.t].EnqLoadSlot? {
      LoadRefusal(m, m.q.th[e.t].my);
    }
  }

  lemma LoadRefusal(m: Run, my: nat)
    requires Inv(m)
    ensures At(m.q, my).cycle < Cycle(my, m.q.n) <==> m.log.at[Place(my, m.q.n)] < my
  {
    var j := Place(my, m.q.n);
    assert SlotOk(m.q, m.log, j);
    TagOrder(m.log.at[j], my, m.q.n);
    if m.log.at[j] < my {
      SamePlace(m.log.at[j], my, m.q.n);
    }
  }

  /** The values of a map from positions, in position order. */
  function InOrder(m: map<nat, nat>, k: nat): seq<nat> {
    if k == 0 then [] else InOrder(m, k - 1) + if k - 1 in m then [m[k - 1]] else []
  }

  ghost predicate Subsequence(a: seq<nat>, b: seq<nat>) {
    if a == [] then true
    else if b == [] then false
    else if a[|a| - 1] == b[|b| - 1] && Subsequence(a[..|a| - 1], b[..|b| - 1]) then true
    else Subsequence(a, b[..|b| - 1])
  }

  lemma {:induction false} InOrderSubsequence(a: map<nat, nat>, b: map<nat, nat>, k: nat)
    requires forall p :: p in a ==> p in b && a[p] == b[p]
    ensures Subsequence(InOrder(a, k), InOrder(b, k))
  {
    if k == 0 {
    } else {
      InOrderSubsequence(a, b, k - 1);
      var s, r := InOrder(a, k), InOrder(b, k);
      if k - 1 in b {
        assert r[..|r| - 1] == InOrder(b, k - 1);
        if k - 1 in a {
          assert s[..|s| - 1] == InOrder(a, k - 1);
        } else {
          assert s == InOrder(a, k - 1);
        }
      } else {
        assert s == InOrder(a, k - 1) && r == InOrder(b, k - 1);
      }
    }
  }

  /**
   Nothing is duplicated, invented or reordered: the values returned, in the order of the
   consumers' positions, are a subsequence of the values stored, in the order of the
   producers' positions.
   */
  lemma DeliveredInOrder(n: nat, threads: nat, sched: seq<Event>, k: nat)
    requires n > 0
    ensures var m := Final(Start(n, threads), sched);
      && (forall p :: p in m.log.got ==> p in m.log.filled && m.log.got[p] == m.log.filled[p])
      && Subsequence(InOrder(m.log.got, k), InOrder(m.log.filled, k))
  {
    StartInv(n, threads);
    RunInv(Start(n, threads), sched);
    var m := Final(Start(n, threads), sched);
    InOrderSubsequence(m.log.got, m.log.filled, k);
  }

  /**
   The tags: slot `j` serves one position `at[j]` of its own; it is tagged with that
   position's cycle and cleared while empty, and holds its item, tagged with the cycle plus
   one, exactly when the position was filled.
   */
  lemma TagsNamePositions(n: nat, threads: nat, sched: seq<Event>, j: nat)
    requires n > 0 && j < 2 * n
    ensures var m := Final(Start(n, threads), sched);
      && Place(m.log.at[j], n) == j
      && m.q.slots[j].cycle == Cycle(m.log.at[j], n) + (if m.log.at[j] in m.log.filled then 1 else 0)
      && m.q.slots[j].val == (if m.log.at[j] in m.log.filled then m.log.filled[m.log.at[j]] else 0)
      && (m.q.slots[j].cycle - Cycle(j, n)) % 2 == (if m.log.at[j] in m.log.filled then 1 else 0)
  {
    StartInv(n, threads);
    RunInv(Start(n, threads), sched);
    var m := Final(Start(n, threads), sched);
    assert SlotOk(m.q, m.log, j);
    assert Place(j, n) == j;
    if j < m.log.at[j] {
      SamePlace(j, m.log.at[j], n);
    }
  }

  /** Every replacement of an entry strictly raises its tag. */
  lemma TagsIncrease(m: Run, e: Event, j: nat)
    requires Inv(m) && j < 2 * m.q.n
    ensures Next(m, e).q.slots[j] == m.q.slots[j] || Next(m, e).q.slots[j].cycle > m.q.slots[j].cycle
    ensures Next(m, e).q.slots[j] != m.q.slots[j] ==> Next(m, e).log.ver[j] == m.log.ver[j] + 1
  {
    if e.t < |m.q.th| {
      assert LocalOk(m.q, m.log, e.t);
      if m.q.th[e.t].DeqTake? || m.q.th[e.t].DeqRepair? {
        NextLap(m.q.th[e.t].my, m.q.n);
      }
    }
  }

  /** The entry a thread is about to replace, as it loaded it. */
  function Expected(q: Queue, t: nat): Entry
    requires q.n > 0 && t < |q.th| && (q.th[t].EnqFill? || q.th[t].DeqTake? || q.th[t].DeqRepair?)
  {
    match q.th[t]
    case EnqFill(_, my, val) => Entry(Cycle(my, q.n), val)
    case DeqTake(my, val) => Entry(Cycle(my, q.n) + 1, val)
    case DeqRepair(_, c, val) => Entry(c, val)
  }

  /** A stale CAS never succeeds: it does exactly if its entry was not replaced since the load. */
  lemma NoStaleCas(n: nat, threads: nat, sched: seq<Event>, t: nat)
    requires n > 0 && t < threads
    ensures var m := Final(Start(n, threads), sched);
      m.q.th[t].EnqFill? || m.q.th[t].DeqTake? || m.q.th[t].DeqRepair? ==>
        (At(m.q, m.q.th[t].my) == Expected(m.q, t) <==> m.log.loaded[t] == m.log.ver[Place(m.q.th[t].my, m.q.n)])
  {
    StartInv(n, threads);
    RunInv(Start(n, threads), sched);
    var m := Final(Start(n, threads), sched);
    assert LocalOk(m.q, m.log, t);
  }

  /** Indices never decrease, and only claims lift `tail` above `head`. */
  lemma IndicesIncrease(m: Run, e: Event)
    requires Inv(m)
    ensures m.q.tail <= Next(m, e).q.tail && m.q.head <= Next(m, e).q.head
    ensures Next(m, e).q.tail != m.q.tail ==>
      Next(m, e).q.tail <= m.q.head ||
      (&& Next(m, e).q.tail == m.q.tail + 1 && m.q.tail !in m.log.prod
       && Next(m, e).log.prod == m.log.prod[m.q.tail := e.t])
  {
    if e.t < |m.q.th| {
      assert LocalOk(m.q, m.log, e.t);
    }
  }

  /** Every position in `[head, tail)` was handed to a producer, and no position above. */
  lemma PositionsHandedOut(n: nat, threads: nat, sched: seq<Event>, p: nat)
    requires n > 0
    ensures var m := Final(Start(n, threads), sched);
      && (m.q.head <= p < m.q.tail ==> p in m.log.prod)
      && (p in m.log.prod ==> p < m.q.tail)
      && |m.log.cons| == m.q.head
  {
    StartInv(n, threads);
    RunInv(Start(n, threads), sched);
  }
}
