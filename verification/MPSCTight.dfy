/**
 The bound of MPSC is tight: with `n + 2` producers a claimed position can be abandoned, and
 the consumer then never gets past it.
 */
module MPSCTight {
  import opened Ring
  import opened TwoLap
  import opened MPSC
  import Fifo = BoundedFifo
  import opened MPSCProof

  /** Producer `t` is about to find a tag other than the one it expects. */
  predicate Abandons(q: Queue, t: nat)
    requires Wf(q) && t < |q.th|
  {
    q.th[t].LoadTag? && q.tags[Place(q.th[t].my, q.n)] != Cycle(q.th[t].my, q.n)
  }

  ghost predicate CanReach(q0: Queue, q: Queue)
    requires Wf(q0)
  {
    exists sched :: Exec(q0, sched) == q
  }

  lemma {:induction false} Concat(q: Queue, a: seq<Event>, b: seq<Event>)
    requires Wf(q)
    ensures Exec(q, a + b) == Exec(Exec(q, a), b)
    decreases a
  {
    if a == [] {
      assert a + b == b;
    } else {
      assert (a + b)[1..] == a[1..] + b;
      Concat(Step(q, a[0]), a[1..], b);
    }
  }

  lemma CanStep(q0: Queue, q: Queue, t: nat)
    requires Wf(q0) && Wf(q) && CanReach(q0, q) && t < |q.th|
    ensures CanReach(q0, Produce(q, t, 0))
  {
    var sched :| Exec(q0, sched) == q;
    var e := Producing(t, 0);
    Concat(q0, sched, [e]);
    assert [e][1..] == [];
    assert Exec(q, [e]) == Step(q, e);
    assert Exec(q0, sched + [e]) == Produce(q, t, 0);
  }

  lemma SetTwice(q: Queue, t: nat, a: MPSC.Producer, b: MPSC.Producer)
    requires t < |q.th|
    ensures Goto(Goto(q, t, a), t, b) == Goto(q, t, b)
  {
    assert q.th[t := a][t := b] == q.th[t := b];
  }

  /** A producer that finds room gets as far as its claim. */
  lemma ToClaim(q0: Queue, q: Queue, t: nat)
    requires Wf(q0) && Wf(q) && CanReach(q0, q) && t < |q.th| && q.th[t].Resting? && q.tail < q.head + q.n
    ensures CanReach(q0, Goto(q, t, Claim(0)))
  {
    var q1, q2, q3 := Goto(q, t, LoadTail(0)), Goto(q, t, LoadHead(0, q.tail)), Goto(q, t, Claim(0));
    assert CanReach(q0, q1) by { CanStep(q0, q, t); }
    assert CanReach(q0, q2) by { CanStep(q0, q1, t); SetTwice(q, t, LoadTail(0), LoadHead(0, q.tail)); }
    assert CanReach(q0, q3) by { CanStep(q0, q2, t); SetTwice(q, t, LoadHead(0, q.tail), Claim(0)); }
  }

  // First, producer 0 fills all but one of the n positions

  /** Tags after the first `k` positions were stored and nothing was taken. */
  ghost predicate Tags(q: Queue, k: nat) {
    && Wf(q) && q.head == 0 && q.con.Away?
    && forall j :: 0 <= j < 2 * q.n ==> q.tags[j] == if j < k then 1 else Cycle(j, q.n)
  }

  ghost predicate Filling(q: Queue, k: nat) {
    && Tags(q, k) && q.tail == k
    && forall i :: 0 <= i < |q.th| ==> q.th[i].Resting?
  }

  function Claimed0(q: Queue): Queue {
    q.(tail := q.tail + 1)
  }

  lemma ToPublish(q0: Queue, q: Queue)
    requires Wf(q0) && |q.th| > 0 && Filling(q, q.tail) && q.tail < q.n && CanReach(q0, Goto(q, 0, Claim(0)))
    ensures CanReach(q0, Goto(Claimed0(q), 0, Publish(0, q.tail)).(data := q.data[q.tail := 0]))
  {
    var k := q.tail;
    assert Place(k, q.n) == k && Cycle(k, q.n) == 0;
    var q4, q5 := Goto(Claimed0(q), 0, LoadTag(0, k)), Goto(Claimed0(q), 0, Write(0, k));
    assert CanReach(q0, q4) by { CanStep(q0, Goto(q, 0, Claim(0)), 0); SetTwice(q, 0, Claim(0), LoadTag(0, k)); }
    assert CanReach(q0, q5) by { CanStep(q0, q4, 0); SetTwice(Claimed0(q), 0, LoadTag(0, k), Write(0, k)); }
    assert CanReach(q0, Goto(Claimed0(q), 0, Publish(0, k)).(data := q.data[k := 0])) by {
      CanStep(q0, q5, 0);
      SetTwice(Claimed0(q), 0, Write(0, k), Publish(0, k));
    }
  }

  lemma ToReturn(q0: Queue, q: Queue, k: nat)
    requires Wf(q0) && Wf(q) && |q.th| > 0 && k < q.n && q.th[0].Resting? && CanReach(q0, Goto(q, 0, Publish(0, k)))
    ensures CanReach(q0, q.(tags := q.tags[k := 1]))
  {
    assert Place(k, q.n) == k && Cycle(k, q.n) == 0;
    var r := q.(tags := q.tags[k := 1]);
    assert CanReach(q0, Goto(r, 0, Returning(Fifo.Ok))) by {
      CanStep(q0, Goto(q, 0, Publish(0, k)), 0);
      SetTwice(q, 0, Publish(0, k), Returning(Fifo.Ok));
    }
    assert CanReach(q0, r) by {
      CanStep(q0, Goto(r, 0, Returning(Fifo.Ok)), 0);
      SetTwice(r, 0, Returning(Fifo.Ok), Resting);
      assert r.th[0 := Resting] == r.th;
    }
  }

  lemma FillOne(q0: Queue, q: Queue) returns (q': Queue)
    requires Wf(q0) && |q.th| > 0 && Filling(q, q.tail) && q.tail < q.n && CanReach(q0, q)
    ensures q'.n == q.n && |q'.th| == |q.th| && Filling(q', q.tail + 1) && CanReach(q0, q')
  {
    var k := q.tail;
    ToClaim(q0, q, 0);
    ToPublish(q0, q);
    var r := Claimed0(q).(data := q.data[k := 0]);
    assert Goto(r, 0, Publish(0, k)) == Goto(Claimed0(q), 0, Publish(0, k)).(data := q.data[k := 0]);
    ToReturn(q0, r, k);
    q' := r.(tags := r.tags[k := 1]);
  }

  lemma {:induction false} FillUpTo(n: nat, producers: nat, k: nat) returns (q: Queue)
    requires n > 0 && producers > 0 && k < n
    ensures q.n == n && |q.th| == producers && Filling(q, k) && CanReach(New(n, producers), q)
  {
    if k == 0 {
      q := New(n, producers);
      assert Exec(q, []) == q;
    } else {
      q := FillUpTo(n, producers, k - 1);
      q := FillOne(New(n, producers), q);
    }
  }

  // Then everybody passes the test before anybody claims

  ghost predicate Poised(q: Queue, i: nat) {
    && q.n > 0 && Tags(q, q.n - 1) && q.tail == q.n - 1 && i <= |q.th|
    && forall j :: 0 <= j < |q.th| ==> if j < i then q.th[j] == Claim(0) else q.th[j].Resting?
  }

  lemma {:induction false} AllPoised(n: nat, producers: nat, i: nat) returns (q: Queue)
    requires 0 < n && i <= producers && producers > 0
    ensures q.n == n && |q.th| == producers && Poised(q, i) && CanReach(New(n, producers), q)
  {
    if i == 0 {
      q := FillUpTo(n, producers, n - 1);
    } else {
      var r := AllPoised(n, producers, i - 1);
      ToClaim(New(n, producers), r, i - 1);
      q := Goto(r, i - 1, Claim(0));
    }
  }

  // Then they claim one after the other

  ghost predicate Racing(q: Queue, i: nat) {
    && q.n > 0 && Tags(q, q.n - 1) && q.tail == q.n - 1 + i && i <= |q.th|
    && forall j :: 0 <= j < |q.th| ==> q.th[j] == if j < i then LoadTag(0, q.n - 1 + j) else Claim(0)
  }

  lemma {:induction false} AllRacing(n: nat, producers: nat, i: nat) returns (q: Queue)
    requires 0 < n && i <= producers && producers > 0
    ensures q.n == n && |q.th| == producers && Racing(q, i) && CanReach(New(n, producers), q)
  {
    if i == 0 {
      q := AllPoised(n, producers, producers);
    } else {
      var r := AllRacing(n, producers, i - 1);
      q := Produce(r, i - 1, 0);
      CanStep(New(n, producers), r, i - 1);
    }
  }

  lemma LastOneLoses(q: Queue)
    requires Racing(q, q.n + 2)
    ensures Abandons(q, q.n + 1)
  {
    NextLap(0, q.n);
    assert q.th[q.n + 1] == LoadTag(0, 2 * q.n);
  }

  ghost predicate Safe(n: nat, producers: nat)
    requires n > 0
  {
    forall sched: seq<Event>, t: nat :: t < producers ==> !Abandons(Exec(New(n, producers), sched), t)
  }

  /**
   Exactly how many producers are safe: no run ever abandons a position if and only if there
   are at most `n + 1` of them.
   */
  lemma SafeIff(n: nat, producers: nat)
    requires n > 0
    ensures Safe(n, producers) <==> producers <= n + 1
  {
    if producers <= n + 1 {
      forall sched: seq<Event>, t: nat | t < producers
        ensures !Abandons(Exec(New(n, producers), sched), t)
      {
        NeverAbandons(n, producers, sched, t);
      }
    } else {
      var q := AllRacing(n, producers, n + 2);
      LastOneLoses(q);
      var sched :| Exec(New(n, producers), sched) == q;
      assert Abandons(Exec(New(n, producers), sched), n + 1);
    }
  }

  /** The overshoot bound is reached, by any number of producers. */
  lemma OvershootTight(n: nat, producers: nat)
    requires n > 0 && producers > 0
    ensures exists sched :: var q := Exec(New(n, producers), sched); q.tail == q.head + n + producers - 1
  {
    var q := AllRacing(n, producers, producers);
    var sched :| Exec(New(n, producers), sched) == q;
  }

  // What an abandoned position does to the consumer

  /** Position `p` was claimed, is not stored, and nobody is going to store it. */
  ghost predicate Abandoned(q: Queue, p: nat) {
    && Wf(q) && AtHead(q) && q.head <= p < q.tail
    && q.tags[Place(p, q.n)] != Cycle(p, q.n) + 1
    && (forall i :: 0 <= i < |q.th| ==> !Holds(q.th[i], p))
    && (q.con.Read? || q.con.Clear? || q.con.Release? || q.con.Advance? ==> q.con.head < p)
  }

  lemma AbandonedStep(q: Queue, e: Event, p: nat)
    requires Abandoned(q, p)
    ensures Abandoned(Step(q, e), p)
  {
    match e {
      case Producing(t, v) =>
        if t < |q.th| && q.th[t].Publish? && Place(q.th[t].my, q.n) == Place(p, q.n) {
          TagOrder(q.th[t].my, p, q.n);
        }
      case Consuming =>
        if q.con.Release? && Place(q.con.head, q.n) == Place(p, q.n) {
          NextLap(q.con.head, q.n);
          TagOrder(q.con.head + 2 * q.n, p, q.n);
        }
    }
  }

  /** The consumer never gets past an abandoned position, whatever happens afterwards. */
  lemma {:induction false} StuckForever(q: Queue, sched: seq<Event>, p: nat)
    requires Abandoned(q, p)
    ensures Abandoned(Exec(q, sched), p) && Exec(q, sched).head <= p
    decreases sched
  {
    if sched == [] {
    } else {
      AbandonedStep(q, sched[0], p);
      StuckForever(Step(q, sched[0]), sched[1..], p);
    }
  }

  /** The loser of the race leaves such a position behind. */
  lemma LoserLeavesAbandoned(q: Queue)
    requires Racing(q, q.n + 2)
    ensures Produce(q, q.n + 1, 0).th[q.n + 1] == Returning(Fifo.WouldBlock)
    ensures Abandoned(Produce(q, q.n + 1, 0), 2 * q.n)
  {
    NextLap(0, q.n);
    assert q.th[q.n + 1] == LoadTag(0, 2 * q.n);
  }

  /** With more than `n + 1` producers a run exists after which `head` never moves past position `2n`. */
  lemma CanGetStuck(n: nat, producers: nat)
    requires n > 0 && producers >= n + 2
    ensures exists sched :: Abandoned(Exec(New(n, producers), sched), 2 * n)
  {
    var q := AllRacing(n, producers, n + 2);
    LoserLeavesAbandoned(q);
    CanStep(New(n, producers), q, n + 1);
    var sched :| Exec(New(n, producers), sched) == Produce(q, n + 1, 0);
    assert Abandoned(Exec(New(n, producers), sched), 2 * n);
  }
}
