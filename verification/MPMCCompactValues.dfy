/**
 The caller's obligation of MPMCCompactIndirect: runs whose values are all distinct meet it,
 so do the runs of a single thread, and it is exactly what keeps consumers to their own
 positions.
 */
module MPMCCompactValues {
  import opened Ring
  import opened CompactRing
  import opened MPMCCompact
  import opened MPMCCompactProof
  import Fifo = BoundedFifo

  // Distinct values are always fresh

  /** The values of the Enqueue calls of a trace, in call order. */
  function Offered(trace: seq<Fifo.Action<nat>>): seq<nat> {
    if trace == [] then []
    else (if trace[0].Call? && trace[0].op.Enq? then [trace[0].op.v] else []) + Offered(trace[1..])
  }

  ghost predicate Distinct(s: seq<nat>) {
    forall i, j :: 0 <= i < j < |s| ==> s[i] != s[j]
  }

  /** The stored and the offered values are among `used`, and no two agree. */
  ghost predicate NoTwoAgree(th: seq<Local>, vals: seq<nat>, used: set<nat>) {
    && (forall p :: 0 <= p < |vals| ==> vals[p] in used)
    && (forall i :: 0 <= i < |th| && Enqueuing(th[i]) ==> th[i].v in used && th[i].v !in vals)
    && (forall i, j :: 0 <= i < j < |th| && Enqueuing(th[i]) && Enqueuing(th[j]) ==> th[i].v != th[j].v)
  }

  lemma AllFresh(m: Run, used: set<nat>, e: Event)
    requires Inv(m) && NoTwoAgree(m.q.th, m.log.vals, used)
    ensures Fresh(m.q, e)
  {
    if Fills(m.q, e.t) {
      forall i | 0 <= i < |m.q.th| && m.q.th[i].DeqTake?
        ensures m.q.th[i].v != m.q.th[e.t].v
      {
        assert ThreadOk(m.q, m.log, i);
        assert m.q.th[i].v in m.log.vals;
      }
    }
  }

  /** A step starts, keeps or stores the value of its own call. */
  lemma StepValues(m: Run, e: Event)
    requires Wf(m.q) && e.t < |m.q.th|
    ensures var l, th', vals' := m.q.th[e.t], Next(m, e).q.th, Next(m, e).log.vals;
      && th' == m.q.th[e.t := th'[e.t]]
      && (Enqueuing(th'[e.t]) ==>
            if l.Resting? then e.op == Fifo.Enq(th'[e.t].v) else Enqueuing(l) && l.v == th'[e.t].v)
      && (vals' == m.log.vals || (vals' == m.log.vals + [l.v] && Enqueuing(l) && !Enqueuing(th'[e.t])))
  {
  }

  lemma NoTwoAgreeStep(m: Run, used: set<nat>, used': set<nat>, e: Event)
    requires Wf(m.q) && NoTwoAgree(m.q.th, m.log.vals, used) && used <= used'
    requires e.t < |m.q.th| && m.q.th[e.t].Resting? && e.op.Enq? ==> e.op.v !in used && e.op.v in used'
    ensures NoTwoAgree(Next(m, e).q.th, Next(m, e).log.vals, used')
  {
    if e.t < |m.q.th| {
      StepValues(m, e);
    }
  }

  /** What a step adds to the offered values. */
  function Offers(q: Queue, e: Event): seq<nat> {
    if e.t < |q.th| && q.th[e.t].Resting? && e.op.Enq? then [e.op.v] else []
  }

  lemma OfferedStep(q: Queue, e: Event, later: seq<Fifo.Action<nat>>)
    ensures Offered(Shown(q, e) + later) == Offers(q, e) + Offered(later)
  {
    var shown := Shown(q, e);
    if shown == [] {
      assert shown + later == later;
    } else {
      assert (shown + later)[0] == shown[0] && (shown + later)[1..] == later;
    }
  }

  lemma {:induction false} DistinctFresh(m: Run, used: set<nat>, sched: seq<Event>)
    requires Inv(m) && NoTwoAgree(m.q.th, m.log.vals, used)
    requires var vs := Offered(Trace(m.q, sched)); Distinct(vs) && forall i :: 0 <= i < |vs| ==> vs[i] !in used
    ensures FreshRun(m.q, sched)
    decreases sched
  {
    if sched == [] {
    } else {
      var e, rest := sched[0], sched[1..];
      AllFresh(m, used, e);
      var vs, vs' := Offered(Trace(m.q, sched)), Offered(Trace(Step(m.q, e), rest));
      assert vs == Offers(m.q, e) + vs' by { OfferedStep(m.q, e, Trace(Step(m.q, e), rest)); }
      var used' := used + set v | v in Offers(m.q, e);
      assert Offers(m.q, e) != [] ==> Offers(m.q, e)[0] == vs[0];
      assert forall i :: 0 <= i < |vs'| ==> vs'[i] == vs[i + |Offers(m.q, e)|];
      NoTwoAgreeStep(m, used, used', e);
      StepInv(m, e);
      DistinctFresh(Next(m, e), used', rest);
    }
  }

  /** With all offered values distinct, MPMCCompactIndirect is linearizable unconditionally. */
  lemma DistinctLinearizable(n: nat, threads: nat, sched: seq<Event>)
    requires n > 0 && Distinct(Offered(Trace(New(n, threads), sched)))
    ensures Fifo.Linearizable(n, threads, Trace(New(n, threads), sched))
  {
    StartInv(n, threads);
    DistinctFresh(Start(n, threads), {}, sched);
    Linearizable(n, threads, sched);
  }

  // A single thread is always fresh

  lemma {:induction false} LoneFresh(q: Queue, sched: seq<Event>)
    requires Wf(q) && |q.th| <= 1
    ensures FreshRun(q, sched)
    decreases sched
  {
    if sched == [] {
    } else {
      LoneFresh(Step(q, sched[0]), sched[1..]);
    }
  }

  // What the obligation is for

  /** If the slot CAS of thread `t` were to succeed now, it would take the next position, which is its own. */
  ghost predicate InTurn(m: Run, t: nat)
    requires Wf(m.q)
  {
    t < |m.q.th| && m.q.th[t].DeqTake? && m.q.buf[Slot(m.q.th[t].head, m.q.n)] == Value(m.q.th[t].v) ==>
      m.q.th[t].head == |m.log.cons|
  }

  /** At no point of the run can a consumer take a position that is not its own. */
  ghost predicate TakesInTurn(m: Run, sched: seq<Event>)
    requires Wf(m.q)
    decreases sched
  {
    && (forall t :: 0 <= t < |m.q.th| ==> InTurn(m, t))
    && (sched == [] || TakesInTurn(Next(m, sched[0]), sched[1..]))
  }

  lemma InvInTurn(m: Run, t: nat)
    requires Inv(m) && t < |m.q.th|
    ensures InTurn(m, t)
  {
    assert ThreadOk(m.q, m.log, t);
    if m.q.th[t].DeqTake? && m.q.th[t].head < |m.log.cons| {
      var p := PassedSlot(m.q.buf, m.q.n, |m.log.cons|, m.log.vals, m.q.th[t].head);
    }
  }

  /** A value stored too early makes the CAS of the consumer that expects it succeed out of turn. */
  lemma NotFreshSteals(m: Run, e: Event) returns (i: nat)
    requires Inv(m) && !Fresh(m.q, e)
    ensures i < |m.q.th| && !InTurn(Next(m, e), i)
  {
    var tail := m.q.th[e.t].tail;
    i :| 0 <= i < |m.q.th| && m.q.th[i].DeqTake? && Slot(m.q.th[i].head, m.q.n) == Slot(tail, m.q.n)
      && m.q.th[i].v == m.q.th[e.t].v;
    assert ThreadOk(m.q, m.log, i) && ThreadOk(m.q, m.log, e.t);
    FillAt(m.q.buf, m.q.n, |m.log.cons|, m.log.vals, tail);
    SameSlot(m.q.th[i].head, tail, m.q.n);
  }

  lemma {:induction false} FreshIffInTurn(m: Run, sched: seq<Event>)
    requires Inv(m)
    ensures FreshRun(m.q, sched) <==> TakesInTurn(m, sched)
    decreases sched
  {
    forall t | 0 <= t < |m.q.th|
      ensures InTurn(m, t)
    {
      InvInTurn(m, t);
    }
    if sched == [] {
    } else if Fresh(m.q, sched[0]) {
      StepInv(m, sched[0]);
      FreshIffInTurn(Next(m, sched[0]), sched[1..]);
    } else {
      var i := NotFreshSteals(m, sched[0]);
    }
  }

  /** The obligation is exact: it is met throughout a run iff no consumer can ever take a position of another one. */
  lemma FreshIff(n: nat, threads: nat, sched: seq<Event>)
    requires n > 0
    ensures FreshRun(New(n, threads), sched) <==> TakesInTurn(Start(n, threads), sched)
  {
    StartInv(n, threads);
    FreshIffInTurn(Start(n, threads), sched);
  }
}
