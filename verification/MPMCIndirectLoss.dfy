/**
 What MPMCIndirect does not promise: an item whose position was claimed by a consumer before
 it was stored can be lost for good.  The consumer ignores whether its repair succeeded.
 */
module MPMCIndirectLoss {
  import opened Ring
  import opened TwoLap
  import opened MPMCIndirect
  import opened MPMCIndirectProof

  /** The consumer of `p` has yet to act on the slot, and the item is still there. */
  ghost predicate Awaited(m: Run, p: nat)
    requires Inv(m) && p in m.log.filled && p < m.q.head
  {
    var i := m.log.cons[p];
    && i < |m.q.th|
    && (m.q.th[i] == DeqLoadSlot(p) || (m.q.th[i].DeqTake? && m.q.th[i].my == p))
    && At(m.q, p) == Entry(Cycle(p, m.q.n) + 1, m.log.filled[p])
  }

  ghost predicate Missed(m: Run, p: nat) {
    Inv(m) && p in m.log.filled && p < m.q.head && p !in m.log.got && !Awaited(m, p)
  }

  /** History is only added to; a position is returned only by the CAS of its own consumer. */
  lemma HistoryStep(m: Run, e: Event, p: nat)
    requires Inv(m) && e.t < |m.q.th| && p in m.log.filled && p < m.q.head
    ensures var log, log' := m.log, Next(m, e).log;
      && p in log'.filled && log'.filled[p] == log.filled[p]
      && p < |log'.cons| && log'.cons[p] == log.cons[p] && m.q.head <= Next(m, e).q.head
      && (p in log'.got && p !in log.got ==>
            m.q.th[e.t].DeqTake? && m.q.th[e.t].my == p && At(m.q, p).cycle == Cycle(p, m.q.n) + 1)
  {
    assert LocalOk(m.q, m.log, e.t);
  }

  lemma OthersStay(q: Queue, e: Event)
    requires Wf(q) && e.t < |q.th|
    ensures Step(q, e).th == q.th[e.t := Step(q, e).th[e.t]]
  {
  }

  /** A thread reaches the CAS of position `p` only by claiming `p` and loading its slot. */
  lemma ConsumerStep(q: Queue, e: Event, p: nat)
    requires Wf(q) && e.t < |q.th|
    ensures var l, l' := q.th[e.t], Step(q, e).th[e.t];
      && (l' == DeqLoadSlot(p) ==> p == q.head)
      && (l'.DeqTake? && l'.my == p ==> l == DeqLoadSlot(p))
  {
  }

  lemma MissedStep(m: Run, e: Event, p: nat)
    requires Missed(m, p)
    ensures Missed(Next(m, e), p)
  {
    StepInv(m, e);
    if e.t < |m.q.th| {
      HistoryStep(m, e, p);
      OthersStay(m.q, e);
      ConsumerStep(m.q, e, p);
      TagsIncrease(m, e, Place(p, m.q.n));
      NotAwaited(m, p);
      if At(m.q, p).cycle == Cycle(p, m.q.n) + 1 {
        ServesFilled(m, p);
        assert LocalOk(m.q, m.log, e.t);
      }
    }
  }

  /** The slot of a filled position holds the item or a larger tag. */
  lemma NotAwaited(m: Run, p: nat)
    requires Inv(m) && p in m.log.filled
    ensures At(m.q, p) == Entry(Cycle(p, m.q.n) + 1, m.log.filled[p]) || At(m.q, p).cycle > Cycle(p, m.q.n) + 1
  {
    var j := Place(p, m.q.n);
    assert SlotOk(m.q, m.log, j);
    if p < m.log.at[j] {
      SamePlace(p, m.log.at[j], m.q.n);
    }
  }

  lemma {:induction false} MissedForever(m: Run, sched: seq<Event>, p: nat)
    requires Missed(m, p)
    ensures Missed(Final(m, sched), p)
    decreases sched
  {
    if sched == [] {
    } else {
      MissedStep(m, sched[0], p);
      MissedForever(Next(m, sched[0]), sched[1..], p);
    }
  }

  lemma OneFinal(m: Run, e: Event, rest: seq<Event>)
    requires WfLog(m)
    ensures Final(m, [e] + rest) == Final(Next(m, e), rest)
  {
    assert ([e] + rest)[1..] == rest;
  }

  lemma AwaitedTake(m: Run, p: nat)
    requires Inv(m) && p in m.log.filled && p < m.q.head && Awaited(m, p) && m.q.th[m.log.cons[p]].DeqTake?
    ensures p in Next(m, Event(m.log.cons[p], Deq)).log.got
  {
    assert LocalOk(m.q, m.log, m.log.cons[p]);
  }

  lemma AwaitedLoad(m: Run, p: nat)
    requires Inv(m) && p in m.log.filled && p < m.q.head && Awaited(m, p) && m.q.th[m.log.cons[p]].DeqLoadSlot?
    ensures var m' := Next(m, Event(m.log.cons[p], Deq));
      Inv(m') && p in m'.log.filled && p < m'.q.head && Awaited(m', p) && m'.log.cons == m.log.cons
      && m'.q.th[m.log.cons[p]].DeqTake?
  {
    StepInv(m, Event(m.log.cons[p], Deq));
  }

  /**
   Exactly when an accepted item at a claimed position can still be delivered: its consumer
   has not yet missed it.  Otherwise no continuation of the run delivers it.
   */
  lemma DeliverableIff(m: Run, p: nat)
    requires Inv(m) && p in m.log.filled && p < m.q.head && p !in m.log.got
    ensures Awaited(m, p) <==> exists sched :: p in Final(m, sched).log.got
  {
    if Awaited(m, p) {
      var e := Event(m.log.cons[p], Deq);
      if m.q.th[e.t].DeqTake? {
        AwaitedTake(m, p);
        OneFinal(m, e, []);
        assert p in Final(m, [e] + []).log.got;
      } else {
        AwaitedLoad(m, p);
        AwaitedTake(Next(m, e), p);
        OneFinal(Next(m, e), e, []);
        OneFinal(m, e, [e] + []);
        assert p in Final(m, [e] + ([e] + [])).log.got;
      }
    } else {
      forall sched
        ensures p !in Final(m, sched).log.got
      {
        MissedForever(m, sched, p);
      }
    }
  }

  // A run that loses its first item

  function With(m: Run, t: nat, l: Local): Run
    requires t < |m.q.th|
  {
    m.(q := Goto(m.q, t, l))
  }

  lemma SetTwice(m: Run, t: nat, a: Local, b: Local)
    requires t < |m.q.th|
    ensures With(With(m, t, a), t, b) == With(m, t, b)
  {
    assert m.q.th[t := a][t := b] == m.q.th[t := b];
  }

  /** The consumer `c` claims position 0 of the fresh queue and loads its empty entry. */
  function Claimed(n: nat, threads: nat, c: nat): Run
    requires n > 0 && c < threads
  {
    var m := Start(n, threads);
    With(m.(q := m.q.(head := 1), log := m.log.(cons := [c])), c, DeqRepair(0, 0, 0))
  }

  lemma ConsumerRun(n: nat, threads: nat, c: nat, rest: seq<Event>) returns (s: seq<Event>)
    requires n > 0 && c < threads
    ensures Final(Start(n, threads), s) == Final(Claimed(n, threads, c), rest)
  {
    var e, m0 := Event(c, Deq), Start(n, threads);
    var m3 := With(m0, c, DeqClaim);
    assert Final(m3, [e] + ([e] + rest)) == Final(Claimed(n, threads, c), rest) by {
      ConsumerLoads(n, threads, c, rest);
    }
    s := ConsumerBegins(n, threads, c, [e] + ([e] + rest));
  }

  lemma ConsumerBegins(n: nat, threads: nat, c: nat, rest: seq<Event>) returns (s: seq<Event>)
    requires n > 0 && c < threads
    ensures Final(Start(n, threads), s) == Final(With(Start(n, threads), c, DeqClaim), rest)
  {
    var e, m0 := Event(c, Deq), Start(n, threads);
    var m1, m2, m3 := With(m0, c, DeqLoadDraining), With(m0, c, DeqLoadThreshold), With(m0, c, DeqClaim);
    s := [e] + ([e] + ([e] + rest));
    assert Next(m0, e) == m1;
    assert Next(m1, e) == m2 by { SetTwice(m0, c, DeqLoadDraining, DeqLoadThreshold); }
    assert Next(m2, e) == m3 by { SetTwice(m0, c, DeqLoadThreshold, DeqClaim); }
    OneFinal(m0, e, [e] + ([e] + rest));
    OneFinal(m1, e, [e] + rest);
    OneFinal(m2, e, rest);
  }

  lemma ConsumerLoads(n: nat, threads: nat, c: nat, rest: seq<Event>)
    requires n > 0 && c < threads
    ensures Final(With(Start(n, threads), c, DeqClaim), [Event(c, Deq)] + ([Event(c, Deq)] + rest)) ==
      Final(Claimed(n, threads, c), rest)
  {
    var e, m0 := Event(c, Deq), Start(n, threads);
    var m3 := With(m0, c, DeqClaim);
    var m0' := m0.(q := m0.q.(head := 1), log := m0.log.(cons := [c]));
    var m4 := With(m0', c, DeqLoadSlot(0));
    assert Next(m3, e) == m4 by { SetTwice(m0, c, DeqClaim, DeqLoadSlot(0)); }
    assert Next(m4, e) == Claimed(n, threads, c) by {
      SetTwice(m0', c, DeqLoadSlot(0), DeqRepair(0, 0, 0));
      assert At(m4.q, 0) == Entry(0, 0);
      assert m4.log.loaded[c := 0] == m4.log.loaded;
    }
    OneFinal(m3, e, [e] + rest);
    OneFinal(m4, e, rest);
  }

  /** After that, producer `b` has claimed position 0 too. */
  function Chasing(n: nat, threads: nat, c: nat, b: nat): Run
    requires n > 0 && c < threads && b < threads
  {
    var m := Claimed(n, threads, c);
    m.(q := m.q.(tail := 1), log := m.log.(prod := map[0 := b]))
  }

  /** It has stored its item there and returned. */
  function Stored(n: nat, threads: nat, c: nat, b: nat, v: nat): Run
    requires n > 0 && c < threads && b < threads
  {
    var m := Chasing(n, threads, c, b);
    m.(q := m.q.(slots := m.q.slots[0 := Entry(1, v)]),
       log := m.log.(filled := map[0 := v], ver := m.log.ver[0 := 1]))
  }

  lemma ProducerClaims0(n: nat, threads: nat, c: nat, b: nat, v: nat, rest: seq<Event>) returns (s: seq<Event>)
    requires n > 0 && c < threads && b < threads && c != b
    ensures Final(Claimed(n, threads, c), s) == Final(With(Chasing(n, threads, c, b), b, EnqLoadSlot(v, 0)), rest)
  {
    var e, m0 := Event(b, Enq(v)), Claimed(n, threads, c);
    var m1, m2, m3 := With(m0, b, EnqLoadTail(v)), With(m0, b, EnqLoadHead(v, 0)), With(m0, b, EnqClaim(v));
    var m4 := With(Chasing(n, threads, c, b), b, EnqLoadSlot(v, 0));
    s := [e] + ([e] + ([e] + ([e] + rest)));
    assert Next(m0, e) == m1;
    assert Next(m1, e) == m2 by { SetTwice(m0, b, EnqLoadTail(v), EnqLoadHead(v, 0)); }
    assert Next(m2, e) == m3 by { SetTwice(m0, b, EnqLoadHead(v, 0), EnqClaim(v)); }
    assert Next(m3, e) == m4 by { SetTwice(m0, b, EnqClaim(v), EnqLoadSlot(v, 0)); }
    OneFinal(m0, e, [e] + ([e] + ([e] + rest)));
    OneFinal(m1, e, [e] + ([e] + rest));
    OneFinal(m2, e, [e] + rest);
    OneFinal(m3, e, rest);
  }

  lemma ProducerStores(n: nat, threads: nat, c: nat, b: nat, v: nat, rest: seq<Event>) returns (s: seq<Event>)
    requires n > 0 && c < threads && b < threads && c != b
    ensures Final(With(Chasing(n, threads, c, b), b, EnqLoadSlot(v, 0)), s) ==
      Final(With(Stored(n, threads, c, b, v), b, EnqReset(v, 0)), rest)
  {
    var e, m0 := Event(b, Enq(v)), Chasing(n, threads, c, b);
    var m1, m2 := With(m0, b, EnqLoadSlot(v, 0)), With(m0, b, EnqFill(v, 0, 0));
    var m3 := With(Stored(n, threads, c, b, v), b, EnqReset(v, 0));
    s := [e] + ([e] + rest);
    assert At(m0.q, 0) == Entry(0, 0);
    assert Next(m1, e) == m2 by {
      SetTwice(m0, b, EnqLoadSlot(v, 0), EnqFill(v, 0, 0));
      assert m0.log.loaded[b := 0] == m0.log.loaded;
    }
    assert Next(m2, e) == m3 by {
      SetTwice(m0, b, EnqFill(v, 0, 0), EnqReset(v, 0));
      assert m0.log.at[0 := 0] == m0.log.at;
    }
    OneFinal(m1, e, [e] + rest);
    OneFinal(m2, e, rest);
  }

  lemma ProducerReturns(n: nat, threads: nat, c: nat, b: nat, v: nat, rest: seq<Event>) returns (s: seq<Event>)
    requires n > 0 && c < threads && b < threads && c != b
    ensures Final(With(Stored(n, threads, c, b, v), b, EnqReset(v, 0)), s) ==
      Final(With(Stored(n, threads, c, b, v), b, Returning(Ok)), rest)
  {
    var e, m := Event(b, Enq(v)), Stored(n, threads, c, b, v);
    s := [e] + rest;
    SetTwice(m, b, EnqReset(v, 0), Returning(Ok));
    OneFinal(With(m, b, EnqReset(v, 0)), e, rest);
  }

  /**
   For every capacity, value and pair of threads there is a run in which an Enqueue returns
   Ok and its item is never delivered, whatever happens afterwards.
   */
  lemma ItemCanBeLost(n: nat, threads: nat, c: nat, b: nat, v: nat)
    requires n > 0 && c < threads && b < threads && c != b
    ensures exists sched ::
      var m := Final(Start(n, threads), sched);
      && m.q.th[b] == Returning(Ok) && m.log.filled == map[0 := v]
      && forall more :: 0 !in Final(m, more).log.got
  {
    var m := With(Stored(n, threads, c, b, v), b, Returning(Ok));
    var s := ProducerReturns(n, threads, c, b, v, []);
    s := ProducerStores(n, threads, c, b, v, s);
    s := ProducerClaims0(n, threads, c, b, v, s);
    s := ConsumerRun(n, threads, c, s);
    assert Final(Start(n, threads), s) == m;
    StartInv(n, threads);
    RunInv(Start(n, threads), s);
    assert !Awaited(m, 0);
    forall more
      ensures 0 !in Final(m, more).log.got
    {
      MissedForever(m, more, 0);
    }
  }
}
