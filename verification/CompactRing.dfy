/**
 The slot words shared by the compact queues: a slot holds a value, or an empty mark that
 names the round in which it may next be filled.
 */
module CompactRing {
  import opened Ring

  datatype Word = Value(v: nat) | Empty(round: nat)

  /** The constructor's buffer: every slot is empty for round 0. */
  function NewBuffer(n: nat): seq<Word> {
    seq(n, _ => Empty(0))
  }

  /**
   Positions below `taken` have been taken, those below `|vals|` have been filled with
   `vals`.  The window `[taken, taken + n)` visits every slot once, so this describes the
   whole buffer.
   */
  ghost predicate Layout(buf: seq<Word>, n: nat, taken: nat, vals: seq<nat>) {
    && n > 0 && |buf| == n
    && taken <= |vals| <= taken + n
    && (forall p :: taken <= p < |vals| ==> buf[Slot(p, n)] == Value(vals[p]))
    && (forall p :: |vals| <= p < taken + n ==> buf[Slot(p, n)] == Empty(Round(p, n)))
  }

  lemma NewLayout(n: nat)
    requires n > 0
    ensures Layout(NewBuffer(n), n, 0, [])
  {
  }

  /** A producer that loaded `t` finds the mark of round `t` only if `t` is the next position to fill. */
  lemma FillAt(buf: seq<Word>, n: nat, taken: nat, vals: seq<nat>, t: nat)
    requires Layout(buf, n, taken, vals)
    requires t <= |vals| && t < taken + n
    ensures buf[Slot(t, n)] == Empty(Round(t, n)) <==> t == |vals|
  {
    if t < taken {
      var q := Later(t, taken, n);
      assert buf[Slot(q, n)] == (if q < |vals| then Value(vals[q]) else Empty(Round(q, n)));
    }
  }

  lemma FillKeeps(buf: seq<Word>, n: nat, taken: nat, vals: seq<nat>, v: nat)
    requires Layout(buf, n, taken, vals) && |vals| < taken + n
    ensures Layout(buf[Slot(|vals|, n) := Value(v)], n, taken, vals + [v])
  {
    forall p | taken <= p < taken + n && p != |vals|
      ensures Slot(p, n) != Slot(|vals|, n)
    {
      Apart(p, |vals|, n);
    }
  }

  /** What the slot of an already passed position can show. */
  lemma PassedSlot(buf: seq<Word>, n: nat, taken: nat, vals: seq<nat>, h: nat) returns (q: nat)
    requires Layout(buf, n, taken, vals)
    requires h < taken
    ensures h + n <= q < taken + n && Slot(q, n) == Slot(h, n)
    ensures buf[Slot(h, n)] == (if q < |vals| then Value(vals[q]) else Empty(Round(q, n)))
  {
    q := Later(h, taken, n);
    assert buf[Slot(q, n)] == (if q < |vals| then Value(vals[q]) else Empty(Round(q, n)));
  }

  lemma TakeKeeps(buf: seq<Word>, n: nat, taken: nat, vals: seq<nat>)
    requires Layout(buf, n, taken, vals) && taken < |vals|
    ensures Layout(buf[Slot(taken, n) := Empty(Round(taken, n) + 1)], n, taken + 1, vals)
  {
    forall p | taken < p < taken + n
      ensures Slot(p, n) != Slot(taken, n)
    {
      Apart(p, taken, n);
    }
    assert Slot(taken + n, n) == Slot(taken, n) && Round(taken + n, n) == Round(taken, n) + 1;
  }
}
