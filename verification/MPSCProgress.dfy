/**
 MPSC: what is stored is the argument of the call, every other slot is cleared, and how many
 steps a call can make.
 */
module MPSCProgress {
  import opened Ring
  import opened TwoLap
  import opened MPSC
  import opened MPSCProof
  import Fifo = BoundedFifo

  // Cleared slots

  /** Position `p` is stored, or its slot is cleared, or its producer has just written it. */
  ghost predicate Clean(q: Queue, log: Log, p: nat)
    requires Wf(q)
  {
    || p in log.stored
    || q.data[Place(p, q.n)] == 0
    || (p < |log.prod| && log.prod[p] < |q.th| && q.th[log.prod[p]].Publish? && q.th[log.prod[p]].my == p)
  }

  ghost predicate ClearInv(m: Run) {
    && Inv(m) && (forall p :: |m.log.out| <= p < |m.log.out| + 2 * m.q.n ==> Clean(m.q, m.log, p))
    && (m.q.con.Release? ==> m.q.data[Place(m.q.con.head, m.q.n)] == 0)
  }

  /** A producer's step other than writing leaves the data and the consumer alone. */
  ghost predicate DataKept(m: Run, m': Run, t: nat)
    requires t < |m.q.th|
  {
    && m'.q.n == m.q.n && m'.q.data == m.q.data && m'.q.con == m.q.con && m'.log.out == m.log.out
    && m.log.stored <= m'.log.stored && m.log.prod <= m'.log.prod && |m'.q.th| == |m.q.th|
    && (forall i :: 0 <= i < |m.q.th| && i != t ==> m'.q.th[i] == m.q.th[i])
    && (m.q.th[t].Publish? ==> m.q.th[t].my in m'.log.stored)
  }

  lemma ProducerData(m: Run, e: Event)
    requires Wf(m.q) && e.Producing? && e.t < |m.q.th| && !m.q.th[e.t].Write?
    ensures DataKept(m, Next(m, e), e.t)
  {
  }

  lemma ProducerClear(m: Run, m': Run, t: nat)
    requires ClearInv(m) && t < |m.q.th| && DataKept(m, m', t) && Inv(m')
    ensures ClearInv(m')
  {
    forall p | |m'.log.out| <= p < |m'.log.out| + 2 * m'.q.n
      ensures Clean(m'.q, m'.log, p)
    {
      assert Clean(m.q, m.log, p);
    }
  }

  lemma WriteClear(m: Run, m': Run, t: nat)
    requires ClearInv(m) && t < |m.q.th| && m.q.th[t].Write? && Inv(m') && m'.log == m.log
    requires var Write(v, my) := m.q.th[t];
      m'.q == Goto(m.q, t, Publish(v, my)).(data := m.q.data[Place(my, m.q.n) := v])
    ensures ClearInv(m')
  {
    var my := m.q.th[t].my;
    assert HolderOk(m.q, m.log, t);
    HeldWindow(m, t);
    if m.q.con.Release? {
      Separate(my, m.q.con.head, Taken(m), m.q.n);
    }
    forall p | |m'.log.out| <= p < |m'.log.out| + 2 * m'.q.n
      ensures Clean(m'.q, m'.log, p)
    {
      assert Clean(m.q, m.log, p);
      if p != my {
        Separate(p, my, Taken(m), m.q.n);
      }
    }
  }

  lemma ConsumerClear(m: Run)
    requires ClearInv(m) && Inv(Next(m, Consuming))
    ensures ClearInv(Next(m, Consuming))
  {
    var m' := Next(m, Consuming);
    forall p | |m'.log.out| <= p < |m'.log.out| + 2 * m'.q.n
      ensures Clean(m'.q, m'.log, p)
    {
      if p < |m.log.out| + 2 * m.q.n {
        assert Clean(m.q, m.log, p);
      } else {
        NextLap(m.q.con.head, m.q.n);
      }
    }
  }

  lemma {:induction false} ClearRun(m: Run, sched: seq<Event>)
    requires ClearInv(m)
    ensures ClearInv(Final(m, sched))
    decreases sched
  {
    if sched == [] {
    } else {
      StepInv(m, sched[0]);
      if sched[0].Consuming? {
        ConsumerClear(m);
      } else if sched[0].t < |m.q.th| && m.q.th[sched[0].t].Write? {
        WriteClear(m, Next(m, sched[0]), sched[0].t);
      } else if sched[0].t < |m.q.th| {
        ProducerData(m, sched[0]);
        ProducerClear(m, Next(m, sched[0]), sched[0].t);
      }
      ClearRun(Next(m, sched[0]), sched[1..]);
    }
  }

  /** With at most `n + 1` producers every slot holds a stored item, is being written, or is cleared. */
  lemma SlotsCleared(n: nat, producers: nat, sched: seq<Event>, p: nat)
    requires 0 < n && producers <= n + 1
    ensures var m := Final(Start(n, producers), sched);
      && Inv(m) && m.q.n == n
      && (|m.log.out| <= p < |m.log.out| + 2 * n ==> Clean(m.q, m.log, p))
  {
    StartInv(n, producers);
    ClearRun(Start(n, producers), sched);
  }

  // Arguments and steps, for any number of producers

  predicate Enqueuing(l: Producer) {
    !l.Resting? && !l.Returning?
  }

  function ProducerRank(l: Producer): nat {
    match l
    case Resting => 0
    case LoadTail(_) => 1
    case LoadHead(_, _) => 2
    case Claim(_) => 3
    case LoadTag(_, _) => 4
    case Write(_, _) => 5
    case Publish(_, _) => 6
    case Returning(_) => 7
  }

  function ConsumerRank(l: Consumer): nat {
    match l
    case Away => 0
    case ReadHead => 1
    case ReadTag(_) => 2
    case Read(_) => 3
    case Clear(_, _) => 4
    case Release(_, _) => 5
    case Advance(_, _) => 6
    case Leaving(_) => 7
  }

  /**
   A run with, for the running call of each producer, its argument, the `tail` it started
   from, its extra trips and its own steps; the own steps of the consumer's call; and, by
   position, the argument of the call that claimed it.
   */
  datatype Book = Book(
    m: Run, arg: seq<nat>, base: seq<nat>, trips: seq<nat>, steps: seq<nat>, takes: nat, args: seq<nat>)

  ghost predicate WfBook(b: Book) {
    Wf(b.m.q) && |b.arg| == |b.base| == |b.trips| == |b.steps| == |b.m.q.th|
  }

  function Begun(n: nat, producers: nat): Book
    requires n > 0
  {
    var none := seq(producers, _ => 0);
    Book(Start(n, producers), none, none, none, none, 0, [])
  }

  ghost function NextBook(b: Book, e: Event): (r: Book)
    requires WfBook(b)
    ensures WfBook(r) && r.m == Next(b.m, e)
  {
    var m' := Next(b.m, e);
    match e
    case Consuming => b.(m := m', takes := if m'.q.con.Away? then 0 else b.takes + 1)
    case Producing(t, v) =>
      if t >= |b.m.q.th| then b.(m := m')
      else
        var l, l' := b.m.q.th[t], m'.q.th[t];
        if l.Resting? then
          b.(m := m', arg := b.arg[t := v], base := b.base[t := b.m.q.tail],
             trips := b.trips[t := 0], steps := b.steps[t := 1])
        else
          b.(m := m',
             trips := b.trips[t := b.trips[t] + if l.LoadTag? && l'.LoadTail? then 1 else 0],
             steps := b.steps[t := if l'.Resting? then 0 else b.steps[t] + 1],
             args := if l.Claim? then b.args + [b.arg[t]] else b.args)
  }

  ghost function FinalBook(b: Book, sched: seq<Event>): (r: Book)
    requires WfBook(b)
    ensures WfBook(r) && r.m == Final(b.m, sched) && |r.m.q.th| == |b.m.q.th|
    decreases sched
  {
    if sched == [] then b else FinalBook(NextBook(b, sched[0]), sched[1..])
  }

  ghost predicate ProducerOk(b: Book, i: nat)
    requires WfBook(b) && i < |b.m.q.th|
  {
    var l := b.m.q.th[i];
    && (!l.Resting? ==> b.steps[i] <= 4 * b.trips[i] + ProducerRank(l))
    && (!l.Resting? ==> b.base[i] + b.trips[i] + (if l.LoadTag? then 1 else 0) <= b.m.q.tail)
    && (Enqueuing(l) ==> l.v == b.arg[i])
    && (l.LoadTag? || l.Write? || l.Publish? ==> Claimed(b, i, l.my))
    && (l == Returning(Fifo.Ok) ==> exists p :: p in b.m.log.stored && Claimed(b, i, p))
  }

  /** The running call of producer `i` claimed position `p`, for its argument. */
  ghost predicate Claimed(b: Book, i: nat, p: nat)
    requires WfBook(b) && i < |b.m.q.th|
  {
    && p < |b.m.log.prod| && p < |b.m.log.vals|
    && b.base[i] <= p && b.m.log.prod[p] == i && b.m.log.vals[p] == b.arg[i]
  }

  ghost predicate BookInv(b: Book) {
    && WfBook(b) && b.takes <= ConsumerRank(b.m.q.con) && b.args == b.m.log.vals
    && |b.m.log.prod| == |b.m.log.vals| == b.m.q.tail
    && forall i :: 0 <= i < |b.m.q.th| ==> ProducerOk(b, i)
  }

  lemma OtherOk(b: Book, e: Event, i: nat)
    requires BookInv(b) && i < |b.m.q.th| && (e.Producing? ==> e.t != i)
    ensures ProducerOk(NextBook(b, e), i)
  {
    var b' := NextBook(b, e);
    assert ProducerOk(b, i);
    if b.m.q.th[i] == Returning(Fifo.Ok) {
      var p :| p in b.m.log.stored && Claimed(b, i, p);
      assert Claimed(b', i, p);
    }
  }

  lemma OwnOk(b: Book, e: Event)
    requires BookInv(b) && e.Producing? && e.t < |b.m.q.th|
    ensures ProducerOk(NextBook(b, e), e.t)
  {
    var b', l := NextBook(b, e), b.m.q.th[e.t];
    assert ProducerOk(b, e.t);
    if l.Publish? {
      assert l.my in b'.m.log.stored && Claimed(b', e.t, l.my);
    }
  }

  lemma BookStep(b: Book, e: Event)
    requires BookInv(b)
    ensures BookInv(NextBook(b, e))
  {
    var b' := NextBook(b, e);
    if e.Producing? && e.t < |b.m.q.th| {
      assert ProducerOk(b, e.t);
    }
    forall i | 0 <= i < |b'.m.q.th|
      ensures ProducerOk(b', i)
    {
      if e.Producing? && e.t == i { OwnOk(b, e); } else { OtherOk(b, e, i); }
    }
  }

  lemma {:induction false} BookRun(b: Book, sched: seq<Event>)
    requires BookInv(b)
    ensures BookInv(FinalBook(b, sched))
    decreases sched
  {
    if sched == [] {
    } else {
      BookStep(b, sched[0]);
      BookRun(NextBook(b, sched[0]), sched[1..]);
    }
  }

  lemma BegunRun(n: nat, producers: nat, sched: seq<Event>) returns (b: Book)
    requires n > 0
    ensures b == FinalBook(Begun(n, producers), sched) && BookInv(b) && |b.m.q.th| == producers
    ensures b.m == Final(Start(n, producers), sched)
  {
    BookRun(Begun(n, producers), sched);
    b := FinalBook(Begun(n, producers), sched);
  }

  /**
   For any number of producers: the value of a position is the argument of the call that
   claimed it, and a returned Ok means that the call has stored its argument.
   */
  lemma ArgumentsKept(n: nat, producers: nat, sched: seq<Event>, t: nat)
    requires n > 0 && t < producers
    ensures var b := FinalBook(Begun(n, producers), sched);
      && b.m == Final(Start(n, producers), sched) && b.m.log.vals == b.args
      && (b.m.q.th[t] == Returning(Fifo.Ok) ==> exists p :: p in b.m.log.stored && Claimed(b, t, p))
  {
    var b := BegunRun(n, producers, sched);
    assert ProducerOk(b, t);
  }

  // A producer never finds its slot ahead of its position

  /** The first position the consumer has not released. */
  function Unreleased(q: Queue): nat {
    if q.con.Advance? then q.head + 1 else q.head
  }

  predicate Reading(con: Consumer) {
    con.Read? || con.Clear? || con.Release?
  }

  /** Tags of unreleased positions are not ahead of them, nor those of unclaimed ones filled. */
  ghost predicate TagsBehind(q: Queue)
    requires Wf(q)
  {
    && (forall p :: Unreleased(q) <= p ==> q.tags[Place(p, q.n)] <= Cycle(p, q.n) + 1)
    && (forall p :: q.tail <= p && Unreleased(q) <= p ==> q.tags[Place(p, q.n)] <= Cycle(p, q.n))
    && (Reading(q.con) ==> q.tags[Place(q.head, q.n)] == Cycle(q.head, q.n) + 1)
    && AtHead(q) && Unreleased(q) <= q.tail
  }

  /** A claimed position is ahead of the consumer, and its slot not ahead of it. */
  ghost predicate HeldBehind(q: Queue, i: nat)
    requires Wf(q) && i < |q.th|
  {
    var l := q.th[i];
    && (l.LoadTag? || l.Write? || l.Publish? ==>
          Unreleased(q) <= l.my < q.tail && q.tags[Place(l.my, q.n)] <= Cycle(l.my, q.n))
    && (l.Write? || l.Publish? ==> q.tags[Place(l.my, q.n)] == Cycle(l.my, q.n))
  }

  ghost predicate BehindInv(q: Queue) {
    Wf(q) && TagsBehind(q) && DistinctHolds(q) && forall i :: 0 <= i < |q.th| ==> HeldBehind(q, i)
  }

  /** No two producers hold one position. */
  ghost predicate DistinctHolds(q: Queue) {
    forall i, j, p :: 0 <= i < |q.th| && 0 <= j < |q.th| && Holds(q.th[i], p) && Holds(q.th[j], p) ==> i == j
  }

  lemma ClaimBehind(q: Queue, t: nat, v: nat)
    requires BehindInv(q) && t < |q.th| && q.th[t] == Claim(v)
    ensures BehindInv(Goto(q, t, LoadTag(v, q.tail)).(tail := q.tail + 1))
  {
    var q' := Goto(q, t, LoadTag(v, q.tail)).(tail := q.tail + 1);
    forall i | 0 <= i < |q'.th|
      ensures HeldBehind(q', i)
    {
      assert HeldBehind(q, i);
    }
    forall i | 0 <= i < |q.th|
      ensures !Holds(q.th[i], q.tail)
    {
      assert HeldBehind(q, i);
    }
  }

  /** A step of a producer that changes no tag and claims nothing. */
  lemma MoveBehind(q: Queue, q': Queue, t: nat)
    requires BehindInv(q) && t < |q.th| == |q'.th| && Wf(q') && q'.n == q.n && q'.tags == q.tags && q'.tail == q.tail
    requires q'.head == q.head && q'.con == q.con && q'.th == q.th[t := q'.th[t]]
    requires HeldBehind(q', t) && forall p :: Holds(q'.th[t], p) ==> Holds(q.th[t], p)
    ensures BehindInv(q')
  {
    forall i | 0 <= i < |q'.th|
      ensures HeldBehind(q', i)
    {
      assert HeldBehind(q, i);
    }
  }

  lemma PublishBehind(q: Queue, t: nat)
    requires BehindInv(q) && t < |q.th| && q.th[t].Publish?
    ensures var my := q.th[t].my;
      BehindInv(Goto(q, t, Returning(Fifo.Ok)).(tags := q.tags[Place(my, q.n) := Cycle(my, q.n) + 1]))
  {
    var my := q.th[t].my;
    var q' := Goto(q, t, Returning(Fifo.Ok)).(tags := q.tags[Place(my, q.n) := Cycle(my, q.n) + 1]);
    assert HeldBehind(q, t);
    forall p | Unreleased(q) <= p && Place(p, q.n) == Place(my, q.n)
      ensures Cycle(my, q.n) <= Cycle(p, q.n) && (p == my || Cycle(my, q.n) + 2 <= Cycle(p, q.n))
    {
      if p < my { SamePlace(p, my, q.n); } else if my < p { SamePlace(my, p, q.n); }
    }
    if Reading(q.con) && Place(q.head, q.n) == Place(my, q.n) {
      TagOrder(my, q.head, q.n);
    }
    forall i | 0 <= i < |q'.th|
      ensures HeldBehind(q', i)
    {
      assert HeldBehind(q, i);
      assert Holds(q.th[t], my);
      if i != t && Holding(q.th[i]) {
        assert Holds(q.th[i], q.th[i].my);
      }
    }
  }

  predicate Holding(l: Producer) {
    l.LoadTag? || l.Write? || l.Publish?
  }

  lemma ReleaseBehind(q: Queue)
    requires BehindInv(q) && q.con.Release?
    ensures var h := q.con.head;
      BehindInv(q.(con := Advance(h, q.con.v), tags := q.tags[Place(h, q.n) := Cycle(h + 2 * q.n, q.n)]))
  {
    var h := q.con.head;
    var q' := q.(con := Advance(h, q.con.v), tags := q.tags[Place(h, q.n) := Cycle(h + 2 * q.n, q.n)]);
    NextLap(h, q.n);
    forall p | h < p && Place(p, q.n) == Place(h, q.n)
      ensures Cycle(h, q.n) + 2 <= Cycle(p, q.n)
    {
      SamePlace(h, p, q.n);
    }
    forall i | 0 <= i < |q'.th|
      ensures HeldBehind(q', i)
    {
      assert HeldBehind(q, i);
      if Holding(q.th[i]) && Place(q.th[i].my, q.n) == Place(h, q.n) {
        TagOrder(q.th[i].my, h, q.n);
      }
    }
  }

  lemma ConsumeBehind(q: Queue)
    requires BehindInv(q) && !q.con.Release?
    ensures BehindInv(Consume(q))
  {
    forall i | 0 <= i < |q.th|
      ensures HeldBehind(Consume(q), i)
    {
      assert HeldBehind(q, i);
    }
  }

  lemma ClaimStep(q: Queue, e: Event)
    requires BehindInv(q) && e.Producing? && e.t < |q.th| && q.th[e.t].Claim?
    ensures BehindInv(Step(q, e))
  {
    ClaimBehind(q, e.t, q.th[e.t].v);
  }

  lemma PublishStep(q: Queue, e: Event)
    requires BehindInv(q) && e.Producing? && e.t < |q.th| && q.th[e.t].Publish?
    ensures BehindInv(Step(q, e))
  {
    PublishBehind(q, e.t);
  }

  lemma QuietStep(q: Queue, e: Event)
    requires BehindInv(q) && e.Producing? && e.t < |q.th| && !q.th[e.t].Claim? && !q.th[e.t].Publish?
    ensures BehindInv(Step(q, e))
  {
    assert HeldBehind(q, e.t);
    QuietBehind(q, e);
    MoveBehind(q, Step(q, e), e.t);
  }

  lemma BehindStep(q: Queue, e: Event)
    requires BehindInv(q)
    ensures BehindInv(Step(q, e))
  {
    if e.Consuming? {
      if q.con.Release? { ReleaseBehind(q); } else { ConsumeBehind(q); }
    } else if e.t < |q.th| {
      if q.th[e.t].Claim? {
        ClaimStep(q, e);
      } else if q.th[e.t].Publish? {
        PublishStep(q, e);
      } else {
        QuietStep(q, e);
      }
    }
  }

  /** What the other steps of a producer leave alone. */
  lemma QuietBehind(q: Queue, e: Event)
    requires Wf(q) && e.Producing? && e.t < |q.th| && !q.th[e.t].Claim? && !q.th[e.t].Publish? && HeldBehind(q, e.t)
    ensures var q' := Step(q, e);
      && q'.tags == q.tags && q'.tail == q.tail && q'.head == q.head && q'.con == q.con
      && q'.th == q.th[e.t := q'.th[e.t]] && HeldBehind(q', e.t)
      && forall p :: Holds(q'.th[e.t], p) ==> Holds(q.th[e.t], p)
  {
  }

  lemma {:induction false} BehindRun(q: Queue, sched: seq<Event>)
    requires BehindInv(q)
    ensures BehindInv(Exec(q, sched))
    decreases sched
  {
    if sched == [] {
    } else {
      BehindStep(q, sched[0]);
      BehindRun(Step(q, sched[0]), sched[1..]);
    }
  }

  lemma NewBehind(n: nat, producers: nat)
    requires n > 0
    ensures BehindInv(New(n, producers))
  {
    forall p: nat
      ensures New(n, producers).tags[Place(p, n)] <= Cycle(p, n)
    {
      var j := Place(p, n);
      assert Place(j, n) == j;
      TagOrder(j, p, n);
      if p < j { SamePlace(p, j, n); }
    }
  }

  /** For any number of producers: no claimed slot is ahead of its position, so no Enqueue makes a second trip. */
  lemma NeverAhead(n: nat, producers: nat, sched: seq<Event>, t: nat)
    requires n > 0 && t < producers
    ensures var q := Exec(New(n, producers), sched);
      q.th[t].LoadTag? ==> q.tags[Place(q.th[t].my, n)] <= Cycle(q.th[t].my, n)
  {
    NewBehind(n, producers);
    BehindRun(New(n, producers), sched);
    assert HeldBehind(Exec(New(n, producers), sched), t);
  }

  // So both operations are wait-free

  ghost predicate Straight(b: Book) {
    BookInv(b) && BehindInv(b.m.q) && forall i :: 0 <= i < |b.m.q.th| ==> b.trips[i] == 0
  }

  lemma StraightStep(b: Book, e: Event)
    requires Straight(b)
    ensures Straight(NextBook(b, e))
  {
    BookStep(b, e);
    BehindStep(b.m.q, e);
    if e.Producing? && e.t < |b.m.q.th| {
      assert HeldBehind(b.m.q, e.t);
    }
  }

  lemma {:induction false} StraightRun(b: Book, sched: seq<Event>)
    requires Straight(b)
    ensures Straight(FinalBook(b, sched))
    decreases sched
  {
    if sched == [] {
    } else {
      StraightStep(b, sched[0]);
      StraightRun(NextBook(b, sched[0]), sched[1..]);
    }
  }

  lemma StraightSteps(b: Book, t: nat)
    requires Straight(b) && t < |b.m.q.th| && !b.m.q.th[t].Resting?
    ensures b.steps[t] <= 7
  {
    assert ProducerOk(b, t);
  }

  /** Wait-free, for any number of producers: a call that has not returned has made at most 7 steps of its own. */
  lemma WaitFree(n: nat, producers: nat, sched: seq<Event>, t: nat)
    requires n > 0 && t < producers
    ensures var b := FinalBook(Begun(n, producers), sched);
      && b.m == Final(Start(n, producers), sched) && b.takes <= 7
      && (!b.m.q.th[t].Resting? ==> b.steps[t] <= 7)
  {
    NewBehind(n, producers);
    StraightRun(Begun(n, producers), sched);
    var b := BegunRun(n, producers, sched);
    if !b.m.q.th[t].Resting? {
      StraightSteps(b, t);
    }
  }
}
