/**
 MPSC: how far blind claims can overshoot, and why up to `n + 1` producers are safe.
 */
module MPSCProof {
  import opened Ring
  import opened TwoLap
  import opened MPSC
  import Fifo = BoundedFifo

  // The claims, for any number of producers

  /** A position claimed by `i` before its last one is at least two below `head + n`. */
  ghost predicate Spaced(prod: seq<nat>, bound: nat) {
    forall a, b :: 0 <= a < b < |prod| && prod[a] == prod[b] ==> a + 2 <= bound
  }

  /** What a producer knows about the positions it claimed earlier. */
  ghost predicate ClaimOk(q: Queue, log: Log, i: nat)
    requires i < |q.th|
  {
    match q.th[i]
    case LoadHead(_, tail) => tail <= q.tail && forall p :: 0 <= p < |log.prod| && log.prod[p] == i ==> p < tail
    case Claim(_) => forall p :: 0 <= p < |log.prod| && log.prod[p] == i ==> p + 2 <= q.head + q.n
    case _ => true
  }

  /** The consumer works at `head`, which only it advances. */
  ghost predicate AtHead(q: Queue) {
    match q.con
    case Away | ReadHead | Leaving(_) => true
    case c => c.head == q.head
  }

  ghost predicate ClaimsInv(m: Run) {
    && Wf(m.q) && |m.log.prod| == m.q.tail && |m.log.vals| == m.q.tail
    && (forall p :: 0 <= p < |m.log.prod| ==> m.log.prod[p] < |m.q.th|)
    && Spaced(m.log.prod, m.q.head + m.q.n)
    && AtHead(m.q)
    && forall i :: 0 <= i < |m.q.th| ==> ClaimOk(m.q, m.log, i)
  }

  lemma ProducerClaims(m: Run, e: Event)
    requires ClaimsInv(m) && e.Producing? && e.t < |m.q.th|
    ensures ClaimsInv(Next(m, e))
  {
    var m' := Next(m, e);
    assert ClaimOk(m.q, m.log, e.t);
    assert Spaced(m'.log.prod, m'.q.head + m'.q.n);
    forall i | 0 <= i < |m'.q.th|
      ensures ClaimOk(m'.q, m'.log, i)
    {
      assert ClaimOk(m.q, m.log, i);
    }
  }

  lemma ConsumerClaims(m: Run)
    requires ClaimsInv(m)
    ensures ClaimsInv(Next(m, Consuming))
  {
    var m' := Next(m, Consuming);
    assert m'.q.head >= m.q.head && m'.q.tail == m.q.tail;
    forall i | 0 <= i < |m'.q.th|
      ensures ClaimOk(m'.q, m'.log, i)
    {
      assert ClaimOk(m.q, m.log, i);
    }
  }

  lemma ClaimsStep(m: Run, e: Event)
    requires ClaimsInv(m)
    ensures ClaimsInv(Next(m, e))
  {
    if e.Consuming? {
      ConsumerClaims(m);
    } else if e.t < |m.q.th| {
      ProducerClaims(m, e);
    }
  }

  lemma {:induction false} ClaimsRun(m: Run, sched: seq<Event>)
    requires ClaimsInv(m)
    ensures ClaimsInv(Final(m, sched))
    decreases sched
  {
    if sched == [] {
    } else {
      ClaimsStep(m, sched[0]);
      ClaimsRun(Next(m, sched[0]), sched[1..]);
    }
  }

  /** Distinct numbers below `producers` are at most `producers` many. */
  lemma {:induction false} Pigeonhole(s: seq<nat>, producers: nat)
    requires forall k :: 0 <= k < |s| ==> s[k] < producers
    requires forall a, b :: 0 <= a < b < |s| ==> s[a] != s[b]
    ensures |s| <= producers
    decreases producers
  {
    if |s| == 0 {
    } else {
      var last := s[|s| - 1];
      var rest := seq(|s| - 1, k requires 0 <= k < |s| - 1 => if s[k] == producers - 1 then last else s[k]);
      Pigeonhole(rest, producers - 1);
    }
  }

  lemma OvershootNow(m: Run)
    requires ClaimsInv(m)
    ensures m.q.tail < m.q.head + m.q.n + |m.q.th|
  {
    var lo := m.q.head + m.q.n - 1;
    if m.q.tail > lo {
      var s := m.log.prod[lo..];
      forall a, b | 0 <= a < b < |s|
        ensures s[a] != s[b]
      {
        assert s[a] == m.log.prod[lo + a] && s[b] == m.log.prod[lo + b];
      }
      Pigeonhole(s, |m.q.th|);
    }
  }

  /** With `P` racing producers, `tail` exceeds `head + n` by at most `P - 1`, in every run. */
  lemma Overshoot(n: nat, producers: nat, sched: seq<Event>)
    requires n > 0
    ensures var q := Exec(New(n, producers), sched); q.tail <= q.head + n + producers - 1
  {
    ClaimsRun(Start(n, producers), sched);
    OvershootNow(Final(Start(n, producers), sched));
  }

  /** So up to `n + 1` producers never make two positions of `[head, tail)` share a slot. */
  lemma DistinctSlots(n: nat, producers: nat, sched: seq<Event>, a: nat, b: nat)
    requires n > 0 && producers <= n + 1
    requires var q := Exec(New(n, producers), sched); q.head <= a < b < q.tail
    ensures Place(a, n) != Place(b, n)
  {
    Overshoot(n, producers, sched);
    if Place(a, n) == Place(b, n) {
      SamePlace(a, b, n);
    }
  }

  // The slots, for up to n + 1 producers

  /** The number of positions the consumer has released. */
  function Taken(m: Run): nat {
    |m.log.out|
  }

  /** Slots of the window `[taken, taken + 2n)` are tagged empty or filled for their position. */
  ghost predicate TagsOk(q: Queue, log: Log)
    requires Wf(q)
  {
    forall p :: |log.out| <= p < |log.out| + 2 * q.n ==>
      q.tags[Place(p, q.n)] == Cycle(p, q.n) + if p in log.stored then 1 else 0
  }

  /** The data of a stored, unreleased position is its value, until the consumer clears it. */
  ghost predicate DataOk(q: Queue, log: Log)
    requires Wf(q) && |log.vals| == q.tail
  {
    forall p :: |log.out| <= p < q.tail && p in log.stored && !(q.con.Release? && q.con.head == p) ==>
      q.data[Place(p, q.n)] == log.vals[p]
  }

  predicate Holds(l: Producer, p: nat) {
    (l.LoadTag? || l.Write? || l.Publish?) && l.my == p
  }

  /** A claimed position is stored, or its producer is still on the way to store it. */
  ghost predicate InFlight(q: Queue, log: Log)
    requires |log.prod| == q.tail && |log.vals| == q.tail
  {
    && (forall p :: p in log.stored ==> p < q.tail)
    && (forall p :: 0 <= p < q.tail && p !in log.stored ==>
          log.prod[p] < |q.th| && Holds(q.th[log.prod[p]], p))
  }

  ghost predicate HolderOk(q: Queue, log: Log, i: nat)
    requires Wf(q) && |log.prod| == q.tail && |log.vals| == q.tail && i < |q.th|
  {
    var l := q.th[i];
    && (l.LoadTag? || l.Write? || l.Publish? ==>
          l.my < q.tail && l.my !in log.stored && log.prod[l.my] == i && log.vals[l.my] == l.v)
    && (l.Publish? ==> q.data[Place(l.my, q.n)] == l.v)
  }

  ghost predicate ConsumerOk(q: Queue, log: Log)
    requires |log.vals| == q.tail
  {
    && log.out <= log.vals
    && (forall p :: 0 <= p < |log.out| ==> p in log.stored)
    && (if q.con.Advance? then |log.out| == q.head + 1 && q.con.v == log.out[q.head] else |log.out| == q.head)
    && (match q.con
        case Read(h) => h in log.stored
        case Clear(h, v) => h in log.stored && h < q.tail && v == log.vals[h]
        case Release(h, v) => h in log.stored && h < q.tail && v == log.vals[h]
        case _ => true)
  }

  ghost predicate Inv(m: Run) {
    && ClaimsInv(m) && |m.q.th| <= m.q.n + 1
    && TagsOk(m.q, m.log) && DataOk(m.q, m.log) && InFlight(m.q, m.log) && ConsumerOk(m.q, m.log)
    && forall i :: 0 <= i < |m.q.th| ==> HolderOk(m.q, m.log, i)
  }

  lemma StartInv(n: nat, producers: nat)
    requires 0 < n && producers <= n + 1
    ensures Inv(Start(n, producers))
  {
  }

  /** A claimed, unstored position lies in the window of distinct slots. */
  lemma HeldWindow(m: Run, i: nat)
    requires Inv(m) && i < |m.q.th| && (m.q.th[i].LoadTag? || m.q.th[i].Write? || m.q.th[i].Publish?)
    ensures Taken(m) <= m.q.th[i].my < Taken(m) + 2 * m.q.n
  {
    assert HolderOk(m.q, m.log, i);
    OvershootNow(m);
  }

  /** The producer always finds the tag it expects: no position is abandoned, no second loop trip. */
  lemma TagExpected(m: Run, i: nat)
    requires Inv(m) && i < |m.q.th| && m.q.th[i].LoadTag?
    ensures m.q.tags[Place(m.q.th[i].my, m.q.n)] == Cycle(m.q.th[i].my, m.q.n)
  {
    HeldWindow(m, i);
    assert HolderOk(m.q, m.log, i);
  }

  // Producer steps

  lemma ProducerMoved(m: Run, m': Run, t: nat)
    requires Inv(m) && t < |m.q.th| && ClaimsInv(m') && |m'.q.th| == |m.q.th|
    requires m'.q == m.q.(th := m.q.th[t := m'.q.th[t]]) && m'.log == m.log
    requires forall p :: Holds(m.q.th[t], p) ==> Holds(m'.q.th[t], p)
    requires HolderOk(m'.q, m'.log, t)
    ensures Inv(m')
  {
    forall i | 0 <= i < |m'.q.th|
      ensures HolderOk(m'.q, m'.log, i)
    {
      assert HolderOk(m.q, m.log, i);
    }
  }

  lemma Claimed(m: Run, m': Run, t: nat, v: nat)
    requires Inv(m) && t < |m.q.th| && ClaimsInv(m') && m.q.th[t] == Claim(v)
    requires m'.q == Goto(m.q, t, LoadTag(v, m.q.tail)).(tail := m.q.tail + 1)
    requires m'.log == m.log.(prod := m.log.prod + [t], vals := m.log.vals + [v])
    ensures Inv(m')
  {
    forall i | 0 <= i < |m'.q.th|
      ensures HolderOk(m'.q, m'.log, i)
    {
      assert HolderOk(m.q, m.log, i);
    }
    assert m'.log.out <= m'.log.vals;
  }

  lemma Written(m: Run, m': Run, t: nat)
    requires Inv(m) && t < |m.q.th| && ClaimsInv(m') && m.q.th[t].Write? && m'.log == m.log
    requires var Write(v, my) := m.q.th[t];
      m'.q == Goto(m.q, t, Publish(v, my)).(data := m.q.data[Place(my, m.q.n) := v])
    ensures Inv(m')
  {
    HeldWindow(m, t);
    var my := m.q.th[t].my;
    assert HolderOk(m.q, m.log, t);
    forall i | 0 <= i < |m'.q.th|
      ensures HolderOk(m'.q, m'.log, i)
    {
      assert HolderOk(m.q, m.log, i);
      if i != t && m.q.th[i].Publish? {
        HeldWindow(m, i);
        Separate(m.q.th[i].my, my, Taken(m), m.q.n);
      }
    }
    OvershootNow(m);
    forall p | Taken(m) <= p < m.q.tail && p in m.log.stored
      ensures Place(p, m.q.n) != Place(my, m.q.n)
    {
      Separate(p, my, Taken(m), m.q.n);
    }
  }

  /** Different positions of one window have different slots. */
  lemma Separate(p: nat, q: nat, lo: nat, n: nat)
    requires n > 0 && lo <= p < lo + 2 * n && lo <= q < lo + 2 * n && p != q
    ensures Place(p, n) != Place(q, n)
  {
    if Place(p, n) == Place(q, n) {
      Within(p, q, n);
    }
  }

  lemma Published(m: Run, m': Run, t: nat)
    requires Inv(m) && t < |m.q.th| && ClaimsInv(m') && m.q.th[t].Publish?
    requires var Publish(v, my) := m.q.th[t];
      && m'.q == Goto(m.q, t, Returning(Fifo.Ok)).(tags := m.q.tags[Place(my, m.q.n) := Cycle(my, m.q.n) + 1])
      && m'.log == m.log.(stored := m.log.stored + {my})
    ensures Inv(m')
  {
    HeldWindow(m, t);
    var my := m.q.th[t].my;
    assert HolderOk(m.q, m.log, t);
    forall p | Taken(m) <= p < Taken(m) + 2 * m.q.n && p != my
      ensures Place(p, m.q.n) != Place(my, m.q.n)
    {
      Separate(p, my, Taken(m), m.q.n);
    }
    forall i | 0 <= i < |m'.q.th|
      ensures HolderOk(m'.q, m'.log, i)
    {
      assert HolderOk(m.q, m.log, i);
    }
  }

  lemma ProducerStep(m: Run, e: Event)
    requires Inv(m) && e.Producing? && e.t < |m.q.th|
    ensures Inv(Next(m, e))
  {
    var m', t := Next(m, e), e.t;
    ClaimsStep(m, e);
    assert HolderOk(m.q, m.log, t);
    match m.q.th[t] {
      case Claim(v) => Claimed(m, m', t, v);
      case Write(_, _) => Written(m, m', t);
      case Publish(_, _) => Published(m, m', t);
      case LoadTag(_, _) =>
        TagExpected(m, t);
        ProducerMoved(m, m', t);
      case _ => ProducerMoved(m, m', t);
    }
  }

  // Consumer steps

  lemma ConsumerMoved(m: Run, m': Run)
    requires Inv(m) && ClaimsInv(m')
    requires m'.log == m.log && m'.q == m.q.(con := m'.q.con)
    requires !m.q.con.Release? && !m'.q.con.Release? && !m.q.con.Advance? && !m'.q.con.Advance?
    requires ConsumerOk(m'.q, m'.log)
    ensures Inv(m')
  {
    forall i | 0 <= i < |m'.q.th|
      ensures HolderOk(m'.q, m'.log, i)
    {
      assert HolderOk(m.q, m.log, i);
    }
  }

  lemma Cleared(m: Run, m': Run)
    requires Inv(m) && ClaimsInv(m') && m.q.con.Clear? && m'.log == m.log
    requires m'.q == m.q.(con := Release(m.q.con.head, m.q.con.v), data := m.q.data[Place(m.q.con.head, m.q.n) := 0])
    ensures Inv(m')
  {
    var h := m.q.con.head;
    OvershootNow(m);
    forall p | Taken(m) <= p < m.q.tail && p != h
      ensures Place(p, m.q.n) != Place(h, m.q.n)
    {
      Separate(p, h, Taken(m), m.q.n);
    }
    forall i | 0 <= i < |m'.q.th|
      ensures HolderOk(m'.q, m'.log, i)
    {
      assert HolderOk(m.q, m.log, i);
    }
  }

  lemma Released(m: Run, m': Run)
    requires Inv(m) && ClaimsInv(m') && m.q.con.Release?
    requires m'.q == m.q.(con := Advance(m.q.con.head, m.q.con.v),
      tags := m.q.tags[Place(m.q.con.head, m.q.n) := Cycle(m.q.con.head + 2 * m.q.n, m.q.n)])
    requires m'.log == m.log.(out := m.log.out + [m.q.con.v])
    ensures Inv(m')
  {
    var h := m.q.con.head;
    OvershootNow(m);
    NextLap(h, m.q.n);
    forall p | h < p < h + 2 * m.q.n
      ensures Place(p, m.q.n) != Place(h, m.q.n)
    {
      Separate(p, h, h, m.q.n);
    }
    forall i | 0 <= i < |m'.q.th|
      ensures HolderOk(m'.q, m'.log, i)
    {
      assert HolderOk(m.q, m.log, i);
    }
  }

  lemma Advanced(m: Run, m': Run)
    requires Inv(m) && ClaimsInv(m') && m.q.con.Advance? && m'.log == m.log
    requires m'.q == m.q.(con := Leaving(Fifo.Got(m.q.con.v)), head := m.q.con.head + 1)
    ensures Inv(m')
  {
    forall i | 0 <= i < |m'.q.th|
      ensures HolderOk(m'.q, m'.log, i)
    {
      assert HolderOk(m.q, m.log, i);
    }
  }

  lemma ConsumerStep(m: Run)
    requires Inv(m)
    ensures Inv(Next(m, Consuming))
  {
    var m' := Next(m, Consuming);
    ClaimsStep(m, Consuming);
    match m.q.con {
      case Clear(_, _) => Cleared(m, m');
      case Release(_, _) => Released(m, m');
      case Advance(_, _) => Advanced(m, m');
      case _ => ConsumerMoved(m, m');
    }
  }

  lemma StepInv(m: Run, e: Event)
    requires Inv(m)
    ensures Inv(Next(m, e))
  {
    if e.Consuming? {
      ConsumerStep(m);
    } else if e.t < |m.q.th| {
      ProducerStep(m, e);
    }
  }

  lemma {:induction false} RunInv(m: Run, sched: seq<Event>)
    requires Inv(m)
    ensures Inv(Final(m, sched))
    decreases sched
  {
    if sched == [] {
    } else {
      StepInv(m, sched[0]);
      RunInv(Next(m, sched[0]), sched[1..]);
    }
  }

  // Theorems over every schedule

  /**
   With at most `n + 1` producers no claimed position is ever abandoned and no Enqueue
   makes a second loop trip: the tag it loads is always the one it expects.
   */
  lemma NeverAbandons(n: nat, producers: nat, sched: seq<Event>, t: nat)
    requires 0 < n && producers <= n + 1 && t < producers
    ensures var q := Exec(New(n, producers), sched);
      q.th[t].LoadTag? ==> q.tags[Place(q.th[t].my, n)] == Cycle(q.th[t].my, n)
  {
    StartInv(n, producers);
    RunInv(Start(n, producers), sched);
    var m := Final(Start(n, producers), sched);
    if m.q.th[t].LoadTag? {
      TagExpected(m, t);
    }
  }

  /**
   The consumer receives exactly the claimed values in claim order, each claimed position is
   stored or its Enqueue is still running, and the data it reads is never torn.
   */
  lemma ClaimOrder(n: nat, producers: nat, sched: seq<Event>)
    requires 0 < n && producers <= n + 1
    ensures var m := Final(Start(n, producers), sched);
      && |m.log.prod| == |m.log.vals| == m.q.tail && |m.q.th| == producers
      && m.log.out <= m.log.vals
      && m.q.head <= |m.log.out| <= m.q.head + 1
      && (forall p :: 0 <= p < m.q.tail && p !in m.log.stored ==>
            m.log.prod[p] < producers && Holds(m.q.th[m.log.prod[p]], p))
      && (forall p :: 0 <= p < |m.log.out| ==> p in m.log.stored)
      && (m.q.con.Advance? ==> m.q.head < |m.log.out| && m.q.con.v == m.log.out[m.q.head])
  {
    StartInv(n, producers);
    RunInv(Start(n, producers), sched);
  }

  /**
   Every refusal is exact: full means that `n` or more positions were claimed at the load of
   `tail`, and so still are; empty means that `head` is not stored.
   */
  lemma RefusalsExact(m: Run, e: Event)
    requires Inv(m)
    ensures e.Producing? && e.t < |m.q.th| && !m.q.th[e.t].Returning? ==>
      (Next(m, e).q.th[e.t] == Returning(Fifo.WouldBlock) <==>
        m.q.th[e.t].LoadHead? && m.q.th[e.t].tail >= m.q.head + m.q.n)
    ensures e.Producing? && e.t < |m.q.th| && !m.q.th[e.t].Returning?
      && Next(m, e).q.th[e.t] == Returning(Fifo.WouldBlock)
      ==> m.q.tail >= m.q.head + m.q.n
    ensures e.Consuming? && m.q.con.ReadTag? ==>
      (Next(m, e).q.con == Leaving(Fifo.WouldBlock) <==> m.q.head !in m.log.stored)
  {
    if e.Producing? && e.t < |m.q.th| {
      assert ClaimOk(m.q, m.log, e.t);
      if m.q.th[e.t].LoadTag? {
        TagExpected(m, e.t);
      }
    }
  }
}
