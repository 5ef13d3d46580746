/**
 When MPSC is a bounded FIFO: for one producer every run is linearizable, with effects at the
 store of the tag and at the store of `head`.  With two producers a claimer that stopped makes
 Dequeue refuse although a later Enqueue has returned.
 */
module MPSCLinear {
  import opened Ring
  import opened TwoLap
  import opened MPSC
  import opened MPSCProof
  import Limits = MPMCSeqLimits
  import Fifo = BoundedFifo

  // One producer

  function Meaning(q: Queue, e: Event): Fifo.Action<nat>
    requires Wf(q)
  {
    match e
    case Producing(t, v) =>
      if t >= |q.th| then Fifo.Tau else
      (match q.th[t]
       case Resting => Fifo.Call(t, Fifo.Enq(v))
       case LoadHead(_, tail) => if tail >= q.head + q.n then Fifo.Refuse(t) else Fifo.Tau
       case Publish(_, _) => Fifo.Effect(t)
       case Returning(res) => Fifo.Return(t, res)
       case _ => Fifo.Tau)
    case Consuming =>
      match q.con
      case Away => Fifo.Call(|q.th|, Fifo.Deq)
      case ReadTag(head) =>
        if q.tags[Place(head, q.n)] != Cycle(head, q.n) + 1 then Fifo.Refuse(|q.th|) else Fifo.Tau
      case Advance(_, _) => Fifo.Effect(|q.th|)
      case Leaving(res) => Fifo.Return(|q.th|, res)
      case _ => Fifo.Tau
  }

  function Meanings(q: Queue, sched: seq<Event>): seq<Fifo.Action<nat>>
    requires Wf(q)
    decreases sched
  {
    if sched == [] then [] else [Meaning(q, sched[0])] + Meanings(Step(q, sched[0]), sched[1..])
  }

  predicate Holding(l: Producer) {
    l.LoadTag? || l.Write? || l.Publish?
  }

  /** The number of positions the only producer has stored: all it claimed but the one in hand. */
  function Ready(q: Queue): nat {
    if q.th != [] && Holding(q.th[0]) then q.th[0].my else q.tail
  }

  ghost predicate ProducerOk(q: Queue, l: Producer, st: Fifo.Status<nat>) {
    match l
    case Resting => st == Fifo.Idle
    case LoadTail(v) => st == Fifo.Pending(Fifo.Enq(v))
    case LoadHead(v, tail) => st == Fifo.Pending(Fifo.Enq(v)) && tail == q.tail
    case Claim(v) => st == Fifo.Pending(Fifo.Enq(v)) && q.tail < q.head + q.n
    case LoadTag(v, my) => st == Fifo.Pending(Fifo.Enq(v)) && my + 1 == q.tail <= q.head + q.n
    case Write(v, my) => st == Fifo.Pending(Fifo.Enq(v)) && my + 1 == q.tail <= q.head + q.n
    case Publish(v, my) => st == Fifo.Pending(Fifo.Enq(v)) && my + 1 == q.tail <= q.head + q.n
    case Returning(res) => st == Fifo.Done(res)
  }

  ghost predicate ConsumerStatus(con: Consumer, st: Fifo.Status<nat>) {
    match con
    case Away => st == Fifo.Idle
    case Leaving(res) => st == Fifo.Done(res)
    case _ => st == Fifo.Pending(Fifo.Deq)
  }

  ghost predicate Linked(q: Queue, vals: seq<nat>, o: Fifo.Atomic<nat>) {
    && Wf(q) && |vals| == q.tail && |q.th| <= 1 && |o.status| == |q.th| + 1 && o.cap == q.n
    && q.head <= Ready(q) <= q.tail && o.queue == vals[q.head..Ready(q)]
    && (q.th != [] ==> ProducerOk(q, q.th[0], o.status[0]))
    && ConsumerStatus(q.con, o.status[|q.th|])
  }

  ghost predicate Simulates(m: Run, o: Fifo.Atomic<nat>) {
    Inv(m) && Linked(m.q, m.log.vals, o)
  }

  /** What the consumer finds at `head`. */
  lemma HeadReady(m: Run, o: Fifo.Atomic<nat>)
    requires Simulates(m, o)
    ensures m.q.head in m.log.stored <==> m.q.head < Ready(m.q)
    ensures m.q.con.ReadTag? ==>
      (m.q.tags[Place(m.q.con.head, m.q.n)] == Cycle(m.q.con.head, m.q.n) + 1 <==> m.q.head in m.log.stored)
  {
    if m.q.th != [] {
      assert HolderOk(m.q, m.log, 0);
    }
  }

  lemma StepEnabled(m: Run, o: Fifo.Atomic<nat>, e: Event)
    requires Simulates(m, o)
    ensures Fifo.Enabled(o, Meaning(m.q, e))
  {
    HeadReady(m, o);
    OvershootNow(m);
  }

  /** The producer moves without claiming or storing. */
  lemma QuietLinked(q: Queue, vals: seq<nat>, o: Fifo.Atomic<nat>, e: Event)
    requires Linked(q, vals, o) && e.Producing? && e.t < |q.th| && Fifo.Enabled(o, Meaning(q, e))
    requires !q.th[0].LoadTag? && !q.th[0].Claim? && !q.th[0].Publish?
    ensures Linked(Step(q, e), vals, Fifo.Apply(o, Meaning(q, e)))
  {
  }

  lemma TagLinked(q: Queue, vals: seq<nat>, o: Fifo.Atomic<nat>, e: Event)
    requires Linked(q, vals, o) && e.Producing? && e.t < |q.th| && q.th[0].LoadTag?
    requires q.tags[Place(q.th[0].my, q.n)] == Cycle(q.th[0].my, q.n)
    ensures Linked(Step(q, e), vals, o)
  {
  }

  lemma ClaimLinked(q: Queue, vals: seq<nat>, o: Fifo.Atomic<nat>, e: Event)
    requires Linked(q, vals, o) && e.Producing? && e.t < |q.th| && q.th[0].Claim?
    ensures Linked(Step(q, e), vals + [q.th[0].v], o)
  {
    assert (vals + [q.th[0].v])[q.head..q.tail] == vals[q.head..q.tail];
  }

  lemma PublishLinked(q: Queue, vals: seq<nat>, o: Fifo.Atomic<nat>, e: Event)
    requires Linked(q, vals, o) && e.Producing? && e.t < |q.th| && q.th[0].Publish? && vals[q.tail - 1] == q.th[0].v
    ensures Fifo.Enabled(o, Fifo.Effect(0)) && Linked(Step(q, e), vals, Fifo.Apply(o, Fifo.Effect(0)))
  {
    assert vals[q.head..q.tail] == vals[q.head..q.tail - 1] + [q.th[0].v];
  }

  lemma ProducerSimulates(m: Run, o: Fifo.Atomic<nat>, e: Event)
    requires Simulates(m, o) && e.Producing? && e.t < |m.q.th|
    ensures Fifo.Enabled(o, Meaning(m.q, e))
    ensures Linked(Next(m, e).q, Next(m, e).log.vals, Fifo.Apply(o, Meaning(m.q, e)))
  {
    StepEnabled(m, o, e);
    assert HolderOk(m.q, m.log, 0);
    match m.q.th[0] {
      case LoadTag(_, _) =>
        TagExpected(m, 0);
        TagLinked(m.q, m.log.vals, o, e);
      case Claim(_) => ClaimLinked(m.q, m.log.vals, o, e);
      case Publish(_, _) => PublishLinked(m.q, m.log.vals, o, e);
      case _ => QuietLinked(m.q, m.log.vals, o, e);
    }
  }

  lemma ConsumerLinked(q: Queue, vals: seq<nat>, o: Fifo.Atomic<nat>)
    requires Linked(q, vals, o) && Fifo.Enabled(o, Meaning(q, Consuming))
    requires q.con.Advance? ==> q.con.head == q.head < Ready(q) && q.con.v == vals[q.head]
    ensures Linked(Step(q, Consuming), vals, Fifo.Apply(o, Meaning(q, Consuming)))
  {
    if q.con.Advance? {
      assert vals[q.head..Ready(q)][1..] == vals[q.head + 1..Ready(q)];
    }
  }

  lemma ConsumerSimulates(m: Run, o: Fifo.Atomic<nat>)
    requires Simulates(m, o)
    ensures Fifo.Enabled(o, Meaning(m.q, Consuming))
    ensures Linked(Next(m, Consuming).q, Next(m, Consuming).log.vals, Fifo.Apply(o, Meaning(m.q, Consuming)))
  {
    StepEnabled(m, o, Consuming);
    HeadReady(m, o);
    ConsumerLinked(m.q, m.log.vals, o);
  }

  lemma StepSimulates(m: Run, o: Fifo.Atomic<nat>, e: Event)
    requires Simulates(m, o)
    ensures Fifo.Enabled(o, Meaning(m.q, e)) && Simulates(Next(m, e), Fifo.Apply(o, Meaning(m.q, e)))
  {
    StepInv(m, e);
    if e.Consuming? {
      ConsumerSimulates(m, o);
    } else if e.t < |m.q.th| {
      ProducerSimulates(m, o, e);
    }
  }

  lemma StepShown(q: Queue, e: Event)
    requires Wf(q)
    ensures Shown(q, e) == if Fifo.Visible(Meaning(q, e)) then [Meaning(q, e)] else []
  {
  }

  lemma {:induction false} RunSimulates(m: Run, o: Fifo.Atomic<nat>, sched: seq<Event>)
    requires Simulates(m, o)
    ensures Fifo.Legal(o, Meanings(m.q, sched))
    ensures Fifo.Visibles(Meanings(m.q, sched)) == Trace(m.q, sched)
    decreases sched
  {
    if sched == [] {
    } else {
      var e, rest := sched[0], sched[1..];
      StepSimulates(m, o, e);
      StepShown(m.q, e);
      RunSimulates(Next(m, e), Fifo.Apply(o, Meaning(m.q, e)), rest);
      assert Meanings(m.q, sched)[1..] == Meanings(Step(m.q, e), rest);
    }
  }

  /** With one producer every run is linearizable. */
  lemma LoneProducerLinearizable(n: nat, producers: nat, sched: seq<Event>)
    requires n > 0 && producers <= 1
    ensures Fifo.Linearizable(n, producers + 1, Trace(New(n, producers), sched))
  {
    StartInv(n, producers);
    RunSimulates(Start(n, producers), Fifo.New(n, producers + 1), sched);
  }

  // Two producers

  /** `q` is reachable from `q0` by a run that shows `trace`. */
  ghost predicate Shows(q0: Queue, q: Queue, trace: seq<Fifo.Action<nat>>)
    requires Wf(q0)
  {
    exists sched :: Exec(q0, sched) == q && Trace(q0, sched) == trace
  }

  lemma {:induction false} OneMore(q: Queue, sched: seq<Event>, e: Event)
    requires Wf(q)
    ensures Exec(q, sched + [e]) == Step(Exec(q, sched), e)
    ensures Trace(q, sched + [e]) == Trace(q, sched) + Shown(Exec(q, sched), e)
    decreases sched
  {
    if sched == [] {
      assert Exec(q, [e]) == Exec(Step(q, e), []) && Trace(q, [e]) == Shown(q, e) + Trace(Step(q, e), []);
    } else {
      assert (sched + [e])[1..] == sched[1..] + [e];
      OneMore(Step(q, sched[0]), sched[1..], e);
      Fifo.Associates(Shown(q, sched[0]), Trace(Step(q, sched[0]), sched[1..]), Shown(Exec(q, sched), e));
    }
  }

  lemma Goes(q0: Queue, q: Queue, trace: seq<Fifo.Action<nat>>, e: Event, q': Queue, trace': seq<Fifo.Action<nat>>)
    requires Wf(q0) && Wf(q) && Shows(q0, q, trace) && q' == Step(q, e) && trace' == trace + Shown(q, e)
    ensures Shows(q0, q', trace')
  {
    var sched :| Exec(q0, sched) == q && Trace(q0, sched) == trace;
    OneMore(q0, sched, e);
    assert Exec(q0, sched + [e]) == q' && Trace(q0, sched + [e]) == trace';
  }

  lemma SetTwice(q: Queue, t: nat, a: Producer, b: Producer)
    requires t < |q.th|
    ensures Goto(Goto(q, t, a), t, b) == Goto(q, t, b)
  {
    assert q.th[t := a][t := b] == q.th[t := b];
  }

  /** A step of producer `t` inside its call. */
  lemma Inside(q0: Queue, q: Queue, trace: seq<Fifo.Action<nat>>, t: nat, l: Producer, q': Queue, l': Producer)
    requires Wf(q0) && Wf(q) && t < |q.th| && Shows(q0, Goto(q, t, l), trace) && !l.Resting? && !l.Returning?
    requires |q'.th| == |q.th| && Step(Goto(q, t, l), Producing(t, 0)) == Goto(q', t, l')
    ensures Shows(q0, Goto(q', t, l'), trace)
  {
    assert trace + [] == trace;
    Goes(q0, Goto(q, t, l), trace, Producing(t, 0), Goto(q', t, l'), trace);
  }

  /** An Enqueue with room, up to its claim. */
  lemma Claims(q0: Queue, q: Queue, trace: seq<Fifo.Action<nat>>, t: nat, v: nat)
    requires Wf(q0) && Wf(q) && t < |q.th| && q.th[t].Resting? && Shows(q0, q, trace) && q.tail < q.head + q.n
    ensures Shows(q0, Goto(q.(tail := q.tail + 1), t, LoadTag(v, q.tail)), trace + [Fifo.Call(t, Fifo.Enq(v))])
  {
    var trace' := trace + [Fifo.Call(t, Fifo.Enq(v))];
    Goes(q0, q, trace, Producing(t, v), Goto(q, t, LoadTail(v)), trace');
    SetTwice(q, t, LoadTail(v), LoadHead(v, q.tail));
    Inside(q0, q, trace', t, LoadTail(v), q, LoadHead(v, q.tail));
    SetTwice(q, t, LoadHead(v, q.tail), Claim(v));
    Inside(q0, q, trace', t, LoadHead(v, q.tail), q, Claim(v));
    SetTwice(q, t, Claim(v), LoadTag(v, q.tail));
    Inside(q0, q, trace', t, Claim(v), q.(tail := q.tail + 1), LoadTag(v, q.tail));
  }

  /** Up to the store of the tag, */
  lemma Publishes(q0: Queue, q: Queue, trace: seq<Fifo.Action<nat>>, t: nat, v: nat, my: nat) returns (q': Queue)
    requires Wf(q0) && Wf(q) && t < |q.th| && Shows(q0, Goto(q, t, LoadTag(v, my)), trace)
    requires q.tags[Place(my, q.n)] == Cycle(my, q.n)
    ensures q' == q.(data := q.data[Place(my, q.n) := v], tags := q.tags[Place(my, q.n) := Cycle(my, q.n) + 1])
    ensures Shows(q0, Goto(q', t, Returning(Fifo.Ok)), trace)
  {
    SetTwice(q, t, LoadTag(v, my), Write(v, my));
    Inside(q0, q, trace, t, LoadTag(v, my), q, Write(v, my));
    var q1 := q.(data := q.data[Place(my, q.n) := v]);
    SetTwice(q, t, Write(v, my), Publish(v, my));
    Inside(q0, q, trace, t, Write(v, my), q1, Publish(v, my));
    q' := q1.(tags := q.tags[Place(my, q.n) := Cycle(my, q.n) + 1]);
    SetTwice(q1, t, Publish(v, my), Returning(Fifo.Ok));
    Inside(q0, q1, trace, t, Publish(v, my), q', Returning(Fifo.Ok));
  }

  /** and to the return. */
  lemma Stores(q0: Queue, q: Queue, trace: seq<Fifo.Action<nat>>, t: nat, v: nat, my: nat) returns (q': Queue)
    requires Wf(q0) && Wf(q) && t < |q.th| && q.th[t].Resting? && Shows(q0, Goto(q, t, LoadTag(v, my)), trace)
    requires q.tags[Place(my, q.n)] == Cycle(my, q.n)
    ensures q' == q.(data := q.data[Place(my, q.n) := v], tags := q.tags[Place(my, q.n) := Cycle(my, q.n) + 1])
    ensures Shows(q0, q', trace + [Fifo.Return(t, Fifo.Ok)])
  {
    q' := Publishes(q0, q, trace, t, v, my);
    SetTwice(q', t, Returning(Fifo.Ok), Resting);
    assert q'.th[t := Resting] == q'.th;
    Goes(q0, Goto(q', t, Returning(Fifo.Ok)), trace, Producing(t, 0), q', trace + [Fifo.Return(t, Fifo.Ok)]);
  }

  /** A Dequeue that finds nothing stored at `head`. */
  lemma Refused(q0: Queue, q: Queue, trace: seq<Fifo.Action<nat>>)
    requires Wf(q0) && Wf(q) && q.con.Away? && Shows(q0, q, trace)
    requires q.tags[Place(q.head, q.n)] != Cycle(q.head, q.n) + 1
    ensures Shows(q0, q, trace + [Fifo.Call(|q.th|, Fifo.Deq), Fifo.Return(|q.th|, Fifo.WouldBlock)])
  {
    var called := trace + [Fifo.Call(|q.th|, Fifo.Deq)];
    var done := called + [Fifo.Return(|q.th|, Fifo.WouldBlock)];
    assert called + [] == called;
    Goes(q0, q, trace, Consuming, q.(con := ReadHead), called);
    Goes(q0, q.(con := ReadHead), called, Consuming, q.(con := ReadTag(q.head)), called);
    Goes(q0, q.(con := ReadTag(q.head)), called, Consuming, q.(con := Leaving(Fifo.WouldBlock)), called);
    Goes(q0, q.(con := Leaving(Fifo.WouldBlock)), called, Consuming, q, done);
    assert done == trace + [Fifo.Call(|q.th|, Fifo.Deq), Fifo.Return(|q.th|, Fifo.WouldBlock)];
  }

  /** `a` claims and stops; `b` enqueues and returns; the consumer is refused. */
  lemma Hiding(n: nat, producers: nat, a: nat, b: nat, x: nat, y: nat) returns (sched: seq<Event>)
    requires n >= 2 && a < producers && b < producers && a != b
    ensures Trace(New(n, producers), sched) == Limits.HiddenTrace(a, b, producers, x, y)
  {
    var q0 := New(n, producers);
    assert Exec(q0, []) == q0 && Trace(q0, []) == [];
    Claims(q0, q0, [], a, x);
    var q1 := Goto(q0.(tail := 1), a, LoadTag(x, 0));
    var t1 := [] + [Fifo.Call(a, Fifo.Enq(x))];
    Claims(q0, q1, t1, b, y);
    var t2 := t1 + [Fifo.Call(b, Fifo.Enq(y))];
    assert Place(0, n) == 0 && Place(1, n) == 1;
    var q2 := Stores(q0, q1.(tail := 2), t2, b, y, 1);
    Refused(q0, q2, t2 + [Fifo.Return(b, Fifo.Ok)]);
    var refused := [Fifo.Call(producers, Fifo.Deq), Fifo.Return(producers, Fifo.WouldBlock)];
    var t3 := t2 + [Fifo.Return(b, Fifo.Ok)] + refused;
    assert t3 == Limits.HiddenTrace(a, b, producers, x, y);
    sched :| Exec(q0, sched) == q2 && Trace(q0, sched) == t3;
  }

  lemma NotLinearizable(n: nat, producers: nat, a: nat, b: nat, x: nat, y: nat)
    requires n >= 2 && a < producers && b < producers && a != b
    ensures exists sched ::
      && Trace(New(n, producers), sched) == Limits.HiddenTrace(a, b, producers, x, y)
      && !Fifo.Linearizable(n, producers + 1, Trace(New(n, producers), sched))
  {
    var sched := Hiding(n, producers, a, b, x, y);
    var trace := Limits.HiddenTrace(a, b, producers, x, y);
    forall acts: seq<Fifo.Action<nat>> | Fifo.Legal(Fifo.New(n, producers + 1), acts)
      ensures Fifo.Visibles(acts) != trace
    {
      Limits.Impossible(0, Fifo.New(n, producers + 1), acts, a, b, producers, x, y);
      assert trace[0..] == trace;
    }
  }

  /** Exactly when every run is linearizable: one producer at most. */
  lemma LinearizableIff(n: nat, producers: nat)
    requires n >= 2
    ensures (forall sched :: Fifo.Linearizable(n, producers + 1, Trace(New(n, producers), sched))) <==> producers <= 1
  {
    if producers <= 1 {
      forall sched
        ensures Fifo.Linearizable(n, producers + 1, Trace(New(n, producers), sched))
      {
        LoneProducerLinearizable(n, producers, sched);
      }
    } else {
      NotLinearizable(n, producers, 0, 1, 0, 0);
    }
  }
}
