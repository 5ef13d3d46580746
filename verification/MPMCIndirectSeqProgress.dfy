/**
 MPMCIndirectSeq is not lock-free: a thread that has replaced a slot entry but not yet advanced
 the index stops everybody else on its side.  A call running on its own returns exactly if
 there is no such thread.
 */
module MPMCIndirectSeqProgress {
  import opened Ring
  import opened MPMCIndirectSeq
  import opened MPMCIndirectSeqProof
  import Fifo = BoundedFifo

  /** Thread `t` makes `k` steps while all others stand still. */
  function Solo(q: Queue, t: nat, k: nat): (r: Queue)
    requires Wf(q)
    ensures Wf(r) && |r.th| == |q.th|
    decreases k
  {
    if k == 0 then q else Solo(Step(q, Event(t, Fifo.Deq)), t, k - 1)
  }

  /** The call of thread `t` comes to its end without the help of others. */
  ghost predicate Finishes(q: Queue, t: nat)
    requires Wf(q) && t < |q.th|
  {
    exists k: nat :: Solo(q, t, k).th[t].Returning?
  }

  // Losers spin

  /** A producer at the top of its loop, while another has stored but not advanced `tail`. */
  ghost predicate ProducerBlocked(m: Run, t: nat) {
    Inv(m) && t < |m.q.th| && m.q.th[t].EnqLoadTail? && m.q.tail < |m.log.vals|
  }

  ghost predicate ConsumerBlocked(m: Run, t: nat) {
    Inv(m) && t < |m.q.th| && m.q.th[t].DeqLoadHead? && m.q.head < |m.log.cons|
  }

  /** A trip round the loop of a loser leaves everything as it is. */
  lemma LosersSpin(m: Run, t: nat)
    requires ProducerBlocked(m, t) || ConsumerBlocked(m, t)
    ensures var e := Event(t, Fifo.Deq);
      !Step(m.q, e).th[t].Returning? && Step(Step(m.q, e), e) == m.q
  {
    var q1 := Step(m.q, Event(t, Fifo.Deq));
    if ProducerBlocked(m, t) {
      ProducerSees(m, m.q.tail);
    } else {
      ConsumerSees(m, m.q.head);
    }
    assert q1.th[t := m.q.th[t]] == m.q.th;
  }

  /** And so for any number of steps. */
  lemma {:induction false} SpinsForever(m: Run, t: nat, k: nat)
    requires ProducerBlocked(m, t) || ConsumerBlocked(m, t)
    ensures Solo(m.q, t, k) == if k % 2 == 0 then m.q else Step(m.q, Event(t, Fifo.Deq))
    decreases k
  {
    if k == 0 {
    } else if k == 1 {
      assert Solo(m.q, t, 1) == Solo(Step(m.q, Event(t, Fifo.Deq)), t, 0);
    } else {
      LosersSpin(m, t);
      SpinsForever(m, t, k - 2);
      TwoSteps(m.q, t, k);
    }
  }

  lemma TwoSteps(q: Queue, t: nat, k: nat)
    requires Wf(q) && k >= 2
    ensures Solo(q, t, k) == Solo(Step(Step(q, Event(t, Fifo.Deq)), Event(t, Fifo.Deq)), t, k - 2)
  {
  }

  // The same at every point of the loop

  predicate Enqueuing(l: Local) {
    l.EnqLoadTail? || l.EnqLoadSlot? || l.EnqFill?
  }

  predicate Dequeuing(l: Local) {
    l.DeqLoadHead? || l.DeqLoadSlot? || l.DeqTake?
  }

  /** Thread `t` is inside its loop while the index of its side lags. */
  ghost predicate Blocked(m: Run, t: nat) {
    && Inv(m) && t < |m.q.th|
    && ((Enqueuing(m.q.th[t]) && m.q.tail < |m.log.vals|) || (Dequeuing(m.q.th[t]) && m.q.head < |m.log.cons|))
  }

  function Go(m: Run, t: nat): Run
    requires Wf(m.q)
  {
    Next(m, Event(t, Fifo.Deq))
  }

  lemma BlockedStep(m: Run, t: nat)
    requires Blocked(m, t)
    ensures Blocked(Go(m, t), t)
  {
    StepInv(m, Event(t, Fifo.Deq));
    assert ThreadOk(m.q, m.log, t);
    match m.q.th[t] {
      case EnqLoadSlot(_, tail) => ProducerSees(m, tail);
      case EnqFill(_, tail, _) => ProducerSees(m, tail);
      case DeqLoadSlot(head) => ConsumerSees(m, head);
      case DeqTake(head, _) => ConsumerSees(m, head);
      case _ =>
    }
  }

  lemma {:induction false} BlockedForever(m: Run, t: nat, k: nat)
    requires Blocked(m, t)
    ensures !Solo(m.q, t, k).th[t].Returning?
    decreases k
  {
    if k == 0 {
    } else {
      BlockedStep(m, t);
      BlockedForever(Go(m, t), t, k - 1);
    }
  }

  // Without such a winner the call returns

  /** How many more steps a call needs on its own if no index lags on its side, at most. */
  function Left(q: Queue, l: Local): (k: nat)
    requires Wf(q)
    ensures k <= 5
  {
    match l
    case EnqLoadTail(_) => 4
    case EnqLoadSlot(_, tail) => if tail == q.tail then 3 else 5
    case EnqFill(_, tail, val) => if At(q, tail) == Entry(tail, val) then 2 else 5
    case EnqAdvance(_) => 1
    case DeqLoadHead => 4
    case DeqLoadSlot(head) => if head == q.head then 3 else 5
    case DeqTake(head, val) => if At(q, head) == Entry(head + 1, val) then 2 else 5
    case DeqAdvance(_, _) => 1
    case _ => 0
  }

  ghost predicate Clear(m: Run, t: nat) {
    && Inv(m) && t < |m.q.th| && !m.q.th[t].Resting?
    && (Enqueuing(m.q.th[t]) ==> m.q.tail == |m.log.vals|) && (Dequeuing(m.q.th[t]) ==> m.q.head == |m.log.cons|)
  }

  lemma EnqueueNears(m: Run, t: nat)
    requires Clear(m, t) && Enqueuing(m.q.th[t]) && Inv(Go(m, t))
    ensures Clear(Go(m, t), t) && Left(Go(m, t).q, Go(m, t).q.th[t]) < Left(m.q, m.q.th[t])
  {
    assert ThreadOk(m.q, m.log, t);
    match m.q.th[t] {
      case EnqLoadSlot(_, tail) => ProducerSees(m, tail);
      case _ =>
    }
  }

  lemma DequeueNears(m: Run, t: nat)
    requires Clear(m, t) && Dequeuing(m.q.th[t]) && Inv(Go(m, t))
    ensures Clear(Go(m, t), t) && Left(Go(m, t).q, Go(m, t).q.th[t]) < Left(m.q, m.q.th[t])
  {
    assert ThreadOk(m.q, m.log, t);
    match m.q.th[t] {
      case DeqLoadSlot(head) => ConsumerSees(m, head);
      case _ =>
    }
  }

  lemma {:induction false} ClearReturns(m: Run, t: nat) returns (k: nat)
    requires Clear(m, t)
    ensures k <= Left(m.q, m.q.th[t]) && Solo(m.q, t, k).th[t].Returning?
    decreases Left(m.q, m.q.th[t])
  {
    if m.q.th[t].Returning? {
      k := 0;
    } else if !Enqueuing(m.q.th[t]) && !Dequeuing(m.q.th[t]) {
      k := 1;
      assert Solo(m.q, t, 1) == Solo(Step(m.q, Event(t, Fifo.Deq)), t, 0);
    } else {
      StepInv(m, Event(t, Fifo.Deq));
      if Enqueuing(m.q.th[t]) { EnqueueNears(m, t); } else { DequeueNears(m, t); }
      k := ClearReturns(Go(m, t), t);
      k := k + 1;
    }
  }

  /** Some thread has replaced an entry and not yet advanced the index of its side. */
  predicate Stopped(q: Queue, producers: bool) {
    exists i :: 0 <= i < |q.th| && if producers then q.th[i].EnqAdvance? else q.th[i].DeqAdvance?
  }

  lemma StoppedIffLag(m: Run)
    requires Inv(m)
    ensures Stopped(m.q, true) <==> m.q.tail < |m.log.vals|
    ensures Stopped(m.q, false) <==> m.q.head < |m.log.cons|
  {
    forall i | 0 <= i < |m.q.th|
      ensures m.q.th[i].EnqAdvance? ==> m.q.tail < |m.log.vals|
      ensures m.q.th[i].DeqAdvance? ==> m.q.head < |m.log.cons|
    {
      assert ThreadOk(m.q, m.log, i);
    }
    if m.q.tail < |m.log.vals| {
      assert m.q.th[m.log.prod[m.q.tail]].EnqAdvance?;
    }
    if m.q.head < |m.log.cons| {
      assert m.q.th[m.log.cons[m.q.head]].DeqAdvance?;
    }
  }

  /** A call that is not blocked finishes within 5 steps. */
  lemma FinishesSoon(n: nat, threads: nat, sched: seq<Event>, t: nat) returns (k: nat)
    requires n >= 2 && t < threads && !Final(Start(n, threads), sched).q.th[t].Resting?
    requires Finishes(Final(Start(n, threads), sched).q, t)
    ensures k <= 5 && Solo(Final(Start(n, threads), sched).q, t, k).th[t].Returning?
  {
    StartInv(n, threads);
    RunInv(Start(n, threads), sched);
    var m := Final(Start(n, threads), sched);
    if Blocked(m, t) {
      NeverFinishes(m, t);
    }
    k := ClearReturns(m, t);
  }

  /**
   In every reachable state and at every point of a call: it finishes on its own iff it is not
   inside its loop while a thread of its side stands between its slot CAS and its index CAS.
   */
  lemma FinishesIff(n: nat, threads: nat, sched: seq<Event>, t: nat)
    requires n >= 2 && t < threads
    ensures var q := Final(Start(n, threads), sched).q;
      !q.th[t].Resting? ==>
        (Finishes(q, t) <==> !(Enqueuing(q.th[t]) && Stopped(q, true)) && !(Dequeuing(q.th[t]) && Stopped(q, false)))
  {
    StartInv(n, threads);
    RunInv(Start(n, threads), sched);
    var m := Final(Start(n, threads), sched);
    StoppedIffLag(m);
    if Blocked(m, t) {
      NeverFinishes(m, t);
    } else if !m.q.th[t].Resting? {
      var k := ClearReturns(m, t);
    }
  }

  lemma NeverFinishes(m: Run, t: nat)
    requires Blocked(m, t)
    ensures !Finishes(m.q, t)
  {
    forall k: nat
      ensures !Solo(m.q, t, k).th[t].Returning?
    {
      BlockedForever(m, t, k);
    }
  }

  // Such states are reached

  ghost predicate Reachable(n: nat, threads: nat, q: Queue)
    requires n > 0
  {
    exists sched :: Final(Start(n, threads), sched).q == q
  }

  lemma {:induction false} OneMore(m: Run, sched: seq<Event>, e: Event)
    requires Wf(m.q)
    ensures Wf(Final(m, sched).q) && Final(m, sched + [e]) == Next(Final(m, sched), e)
    decreases sched
  {
    if sched == [] {
      assert Final(m, [e]) == Final(Next(m, e), []);
    } else {
      assert (sched + [e])[1..] == sched[1..] + [e];
      OneMore(Next(m, sched[0]), sched[1..], e);
    }
  }

  lemma ReachNext(n: nat, threads: nat, q: Queue, e: Event) returns (r: Queue)
    requires n > 0 && Wf(q) && Reachable(n, threads, q)
    ensures r == Step(q, e) && Reachable(n, threads, r)
  {
    var sched :| Final(Start(n, threads), sched).q == q;
    OneMore(Start(n, threads), sched, e);
    r := Step(q, e);
    assert Final(Start(n, threads), sched + [e]).q == r;
  }

  /** Threads `a` and `b` are where they are said to be, and position 0 has entry `w`. */
  ghost predicate Stand(n: nat, threads: nat, q: Queue, a: nat, la: Local, b: nat, lb: Local, w: Entry) {
    && n >= 2 && Wf(q) && q.n == n && Reachable(n, threads, q) && |q.th| == threads
    && a < threads && b < threads && a != b && q.th[a] == la && q.th[b] == lb && At(q, 0) == w
  }

  /** Thread `a` stores its item at position 0 while `b` has just called `op`. */
  lemma WinnerStores(n: nat, threads: nat, a: nat, b: nat, v: nat, op: Op) returns (q: Queue)
    requires n >= 2 && a < threads && b < threads && a != b
    ensures Stand(n, threads, q, a, EnqAdvance(0), b, Begin(op), Entry(1, v)) && q.tail == 0 && q.head == 0
  {
    var e := Event(a, Fifo.Enq(v));
    q := New(n, threads);
    assert Final(Start(n, threads), []).q == q;
    assert Slot(0, n) == 0;
    q := ReachNext(n, threads, q, Event(b, op));
    q := ReachNext(n, threads, q, e);
    q := ReachNext(n, threads, q, e);
    assert Stand(n, threads, q, a, EnqLoadSlot(v, 0), b, Begin(op), Entry(0, 0));
    q := ReachNext(n, threads, q, e);
    q := ReachNext(n, threads, q, e);
  }

  lemma WinnerReturns(n: nat, threads: nat, a: nat, b: nat, v: nat) returns (q: Queue)
    requires n >= 2 && a < threads && b < threads && a != b
    ensures Stand(n, threads, q, a, DeqLoadHead, b, DeqLoadHead, Entry(1, v)) && q.head == 0
  {
    var e := Event(a, Fifo.Deq);
    q := WinnerStores(n, threads, a, b, v, Fifo.Deq);
    q := ReachNext(n, threads, q, e);
    q := ReachNext(n, threads, q, e);
    q := ReachNext(n, threads, q, e);
  }

  /** And goes on to take it again, while `b` has just called Dequeue. */
  lemma WinnerTakes(n: nat, threads: nat, a: nat, b: nat, v: nat) returns (q: Queue)
    requires n >= 2 && a < threads && b < threads && a != b
    ensures Stand(n, threads, q, a, DeqAdvance(0, v), b, DeqLoadHead, Entry(n, 0))
  {
    var e := Event(a, Fifo.Deq);
    q := WinnerReturns(n, threads, a, b, v);
    q := ReachNext(n, threads, q, e);
    q := ReachNext(n, threads, q, e);
    assert Stand(n, threads, q, a, DeqTake(0, v), b, DeqLoadHead, Entry(1, v));
    q := ReachNext(n, threads, q, e);
  }

  /**
   Not lock-free: for every capacity and two threads there are runs after which a producer,
   and others after which a consumer, takes any number of steps without returning.
   */
  lemma NotLockFree(n: nat, threads: nat, a: nat, b: nat, v: nat)
    requires n >= 2 && a < threads && b < threads && a != b
    ensures exists sched :: var q := Final(Start(n, threads), sched).q;
      q.th[a].EnqAdvance? && q.th[b] == EnqLoadTail(v) && !Finishes(q, b)
    ensures exists sched :: var q := Final(Start(n, threads), sched).q;
      q.th[a].DeqAdvance? && q.th[b].DeqLoadHead? && !Finishes(q, b)
  {
    var q := WinnerStores(n, threads, a, b, v, Fifo.Enq(v));
    var sched :| Final(Start(n, threads), sched).q == q;
    FinishesIff(n, threads, sched, b);
    assert Stopped(q, true);
    q := WinnerTakes(n, threads, a, b, v);
    var sched' :| Final(Start(n, threads), sched').q == q;
    FinishesIff(n, threads, sched', b);
    assert Stopped(q, false);
  }
}
