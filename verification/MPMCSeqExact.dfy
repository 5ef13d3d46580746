/**
 When MPMCSeq is a bounded FIFO: a run in which every refusal is exact is linearizable, with
 effects at the index CAS.  All runs are like that exactly if there is at most one thread.
 */
module MPMCSeqExact {
  import opened Ring
  import opened MPMCSeq
  import opened MPMCSeqProof
  import Limits = MPMCSeqLimits
  import Fifo = BoundedFifo

  /** A load that leads to a refusal is exact when the queue of claimed positions is full, or empty. */
  predicate Exact(q: Queue, e: Event)
    requires Wf(q)
  {
    e.t < |q.th| ==>
      match q.th[e.t]
      case EnqLoadNum(_, tail) => Num(q, tail) < tail ==> q.tail == q.head + q.n
      case DeqLoadNum(head) => Num(q, head) < head + 1 ==> q.head == q.tail
      case _ => true
  }

  predicate ExactRun(q: Queue, sched: seq<Event>)
    requires Wf(q)
    decreases sched
  {
    sched == [] || (Exact(q, sched[0]) && ExactRun(Step(q, sched[0]), sched[1..]))
  }

  // The abstract queue is what is claimed: effects at the index CAS, refusals at the load

  function Meaning(q: Queue, e: Event): Fifo.Action<nat>
    requires Wf(q)
  {
    if e.t >= |q.th| then Fifo.Tau else
    match q.th[e.t]
    case Resting => Fifo.Call(e.t, e.op)
    case EnqLoadNum(_, tail) => if Num(q, tail) < tail then Fifo.Refuse(e.t) else Fifo.Tau
    case EnqClaim(_, tail) => if q.tail == tail then Fifo.Effect(e.t) else Fifo.Tau
    case DeqLoadNum(head) => if Num(q, head) < head + 1 then Fifo.Refuse(e.t) else Fifo.Tau
    case DeqClaim(head) => if q.head == head then Fifo.Effect(e.t) else Fifo.Tau
    case Returning(res) => Fifo.Return(e.t, res)
    case _ => Fifo.Tau
  }

  function Meanings(q: Queue, sched: seq<Event>): seq<Fifo.Action<nat>>
    requires Wf(q)
    decreases sched
  {
    if sched == [] then [] else [Meaning(q, sched[0])] + Meanings(Step(q, sched[0]), sched[1..])
  }

  ghost predicate StatusOk(l: Local, vals: seq<nat>, st: Fifo.Status<nat>) {
    match l
    case Resting => st == Fifo.Idle
    case EnqLoadTail(v) => st == Fifo.Pending(Fifo.Enq(v))
    case EnqLoadNum(v, _) => st == Fifo.Pending(Fifo.Enq(v))
    case EnqClaim(v, _) => st == Fifo.Pending(Fifo.Enq(v))
    case EnqWrite(_, _) => st == Fifo.Done(Fifo.Ok)
    case EnqPublish(_, _) => st == Fifo.Done(Fifo.Ok)
    case DeqLoadHead => st == Fifo.Pending(Fifo.Deq)
    case DeqLoadNum(_) => st == Fifo.Pending(Fifo.Deq)
    case DeqClaim(_) => st == Fifo.Pending(Fifo.Deq)
    case DeqRead(p) => p < |vals| && st == Fifo.Done(Fifo.Got(vals[p]))
    case DeqClear(p, _) => p < |vals| && st == Fifo.Done(Fifo.Got(vals[p]))
    case DeqRelease(p, _) => p < |vals| && st == Fifo.Done(Fifo.Got(vals[p]))
    case Returning(res) => st == Fifo.Done(res)
  }

  ghost predicate Simulates(m: Run, o: Fifo.Atomic<nat>) {
    && Inv(m) && o.cap == m.q.n && o.queue == m.log.vals[m.q.head..m.q.tail] && |o.status| == |m.q.th|
    && forall i :: 0 <= i < |m.q.th| ==> StatusOk(m.q.th[i], m.log.vals, o.status[i])
  }

  lemma StepEnabled(m: Run, o: Fifo.Atomic<nat>, e: Event)
    requires Simulates(m, o) && Exact(m.q, e)
    ensures Fifo.Enabled(o, Meaning(m.q, e))
  {
    if e.t < |m.q.th| {
      assert LocalOk(m.q, m.log, e.t) && StatusOk(m.q.th[e.t], m.log.vals, o.status[e.t]);
    }
  }

  predicate Claims(q: Queue, t: nat) {
    t < |q.th| && ((q.th[t].EnqClaim? && q.tail == q.th[t].tail) || (q.th[t].DeqClaim? && q.head == q.th[t].head))
  }

  lemma QuietSimulates(m: Run, o: Fifo.Atomic<nat>, e: Event)
    requires Simulates(m, o) && Exact(m.q, e) && !Claims(m.q, e.t) && Inv(Next(m, e))
    ensures Fifo.Enabled(o, Meaning(m.q, e)) && Simulates(Next(m, e), Fifo.Apply(o, Meaning(m.q, e)))
  {
    StepEnabled(m, o, e);
    if e.t < |m.q.th| {
      assert LocalOk(m.q, m.log, e.t) && StatusOk(m.q.th[e.t], m.log.vals, o.status[e.t]);
    }
  }

  lemma ClaimSimulates(m: Run, o: Fifo.Atomic<nat>, e: Event)
    requires Simulates(m, o) && Claims(m.q, e.t) && Inv(Next(m, e))
    ensures Fifo.Enabled(o, Fifo.Effect(e.t)) && Simulates(Next(m, e), Fifo.Apply(o, Fifo.Effect(e.t)))
  {
    var q, vals := m.q, m.log.vals;
    assert LocalOk(q, m.log, e.t) && StatusOk(q.th[e.t], vals, o.status[e.t]);
    if q.th[e.t].EnqClaim? {
      var v := q.th[e.t].v;
      assert (vals + [v])[q.head..q.tail + 1] == vals[q.head..q.tail] + [v];
    } else {
      assert vals[q.head..q.tail][1..] == vals[q.head + 1..q.tail];
    }
  }

  lemma StepSimulates(m: Run, o: Fifo.Atomic<nat>, e: Event)
    requires Simulates(m, o) && Exact(m.q, e)
    ensures Fifo.Enabled(o, Meaning(m.q, e)) && Simulates(Next(m, e), Fifo.Apply(o, Meaning(m.q, e)))
  {
    StepInv(m, e);
    if Claims(m.q, e.t) {
      ClaimSimulates(m, o, e);
    } else {
      QuietSimulates(m, o, e);
    }
  }

  lemma {:induction false} RunSimulates(m: Run, o: Fifo.Atomic<nat>, sched: seq<Event>)
    requires Simulates(m, o) && ExactRun(m.q, sched)
    ensures Fifo.Legal(o, Meanings(m.q, sched))
    ensures Fifo.Visibles(Meanings(m.q, sched)) == Trace(m.q, sched)
    decreases sched
  {
    if sched == [] {
    } else {
      var e, rest := sched[0], sched[1..];
      StepSimulates(m, o, e);
      RunSimulates(Next(m, e), Fifo.Apply(o, Meaning(m.q, e)), rest);
      assert Meanings(m.q, sched)[1..] == Meanings(Step(m.q, e), rest);
    }
  }

  /** A run whose refusals are all exact is linearizable. */
  lemma ExactLinearizable(n: nat, threads: nat, sched: seq<Event>)
    requires n >= 2 && ExactRun(New(n, threads), sched)
    ensures Fifo.Linearizable(n, threads, Trace(New(n, threads), sched))
  {
    StartInv(n, threads);
    RunSimulates(Start(n, threads), Fifo.New(n, threads), sched);
  }

  // One thread

  /** A lone thread finds every claimed position published and every other slot released. */
  lemma LoneExact(m: Run, e: Event)
    requires Inv(m) && |m.q.th| <= 1
    ensures Exact(m.q, e)
  {
    if e.t < |m.q.th| {
      RefusalsExact(m, e);
      assert m.q.tail < m.q.head + m.q.n ==> FreeOk(m.q, m.log, m.q.tail);
      assert m.q.head < m.q.tail ==> ClaimedOk(m.q, m.log, m.q.head);
    }
  }

  lemma {:induction false} LoneExactRun(m: Run, sched: seq<Event>)
    requires Inv(m) && |m.q.th| <= 1
    ensures ExactRun(m.q, sched)
    decreases sched
  {
    if sched == [] {
    } else {
      LoneExact(m, sched[0]);
      StepInv(m, sched[0]);
      LoneExactRun(Next(m, sched[0]), sched[1..]);
    }
  }

  /** Exactly when every run is linearizable: one thread at most. */
  lemma LinearizableIff(n: nat, threads: nat)
    requires n >= 2
    ensures (forall sched :: Fifo.Linearizable(n, threads, Trace(New(n, threads), sched))) <==> threads <= 1
  {
    if threads <= 1 {
      forall sched
        ensures Fifo.Linearizable(n, threads, Trace(New(n, threads), sched))
      {
        StartInv(n, threads);
        LoneExactRun(Start(n, threads), sched);
        ExactLinearizable(n, threads, sched);
      }
    } else {
      Limits.NotLinearizable(n, threads, 0, 1, 1, 0, 0);
    }
  }
}
