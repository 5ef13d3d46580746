/**
 Positions on a ring of `n` slots.

 Every queue of the library numbers its operations by an ever-growing position and stores
 position `p` in slot `p & (n - 1)`, tagging it with `p >> order` or `p / n`.  `Slot` and
 `Round` are these two, by repeated subtraction; `SlotRound` and the Capacity module tie
 them to `%`, `/` and to the bit operations of the source.
 */
module Ring {

  function Slot(p: nat, n: nat): (j: nat)
    requires n > 0
    ensures j < n
  {
    if p < n then p else Slot(p - n, n)
  }

  function Round(p: nat, n: nat): nat
    requires n > 0
  {
    if p < n then 0 else Round(p - n, n) + 1
  }

  /** `Slot` and `Round` are remainder and quotient. */
  lemma {:induction false} SlotRound(p: nat, n: nat)
    requires n > 0
    ensures Slot(p, n) == p % n
    ensures Round(p, n) == p / n
  {
    if p >= n {
      SlotRound(p - n, n);
      assert p == n * Round(p, n) + Slot(p, n);
      DivModUnique(p, n, Round(p, n), Slot(p, n));
    } else {
      DivModUnique(p, n, 0, p);
    }
  }

  lemma DivModUnique(x: nat, n: nat, q: nat, r: nat)
    requires n > 0 && r < n && x == n * q + r
    ensures x / n == q && x % n == r
  {
    var q', r' := x / n, x % n;
    assert n * (q - q') == r' - r by {
      assert x == n * q' + r';
      assert n * (q - q') == n * q - n * q';
    }
    Multiple(n, q - q', r' - r);
  }

  /** Only zero is a multiple of `n` strictly between `-n` and `n`. */
  lemma Multiple(n: int, k: int, d: int)
    requires n > 0 && n * k == d && -n < d < n
    ensures k == 0
  {
    AtLeastOnce(n, k);
    AtLeastOnce(n, -k);
    assert n * -k == -d;
  }

  lemma AtLeastOnce(n: int, k: int)
    requires n > 0
    ensures k >= 1 ==> n * k >= n
  {
    if k >= 1 {
      assert n * (k - 1) >= 0;
    }
  }

  /** Two positions of one slot are at least a whole ring apart, and so are their rounds. */
  lemma {:induction false} SameSlot(p: nat, q: nat, n: nat)
    requires n > 0
    requires p < q && Slot(p, n) == Slot(q, n)
    ensures p + n <= q
    ensures Round(p, n) < Round(q, n)
  {
    if p >= n {
      SameSlot(p - n, q - n, n);
    } else if q < n {
    } else {
      RoundMonotone(p, q - n, n);
    }
  }

  lemma {:induction false} RoundMonotone(p: nat, q: nat, n: nat)
    requires n > 0 && p <= q
    ensures Round(p, n) <= Round(q, n)
  {
    if p < n {
    } else {
      RoundMonotone(p - n, q - n, n);
    }
  }

  /** Slot and round together name one position. */
  lemma SamePosition(p: nat, q: nat, n: nat)
    requires n > 0
    requires Slot(p, n) == Slot(q, n) && Round(p, n) == Round(q, n)
    ensures p == q
  {
    if p < q {
      SameSlot(p, q, n);
    } else if q < p {
      SameSlot(q, p, n);
    }
  }

  /** Less than a ring apart, different positions have different slots. */
  lemma Apart(p: nat, q: nat, n: nat)
    requires n > 0 && p != q && p < q + n && q < p + n
    ensures Slot(p, n) != Slot(q, n)
  {
    if Slot(p, n) == Slot(q, n) {
      if p < q { SameSlot(p, q, n); } else { SameSlot(q, p, n); }
    }
  }

  /** The window `[lo, lo + n)` visits every slot: it holds a later position of `p`'s slot. */
  lemma {:induction false} Later(p: nat, lo: nat, n: nat) returns (q: nat)
    requires n > 0 && p < lo
    ensures lo <= q < lo + n
    ensures p + n <= q && Slot(q, n) == Slot(p, n) && Round(p, n) < Round(q, n)
    decreases lo - p
  {
    q := p + n;
    if q < lo {
      q := Later(q, lo, n);
    }
  }
}

/**
 The two-lap rings of the fetch-and-add queues: `2n` slots, tagged by `p / n`.  The tag of a
 position and of the next position in its slot differ by two, so a tag and the tag plus one
 name the empty and the filled state of one position.
 */
module TwoLap {
  import opened Ring

  /** `p / n`, the cycle of position `p`. */
  function Cycle(p: nat, n: nat): nat
    requires n > 0
  {
    Round(p, n)
  }

  /** Where position `p` lives among `2n` slots. */
  function Place(p: nat, n: nat): (j: nat)
    requires n > 0
    ensures j < 2 * n
  {
    Slot(p, 2 * n)
  }

  lemma NextLap(p: nat, n: nat)
    requires n > 0
    ensures Place(p + 2 * n, n) == Place(p, n)
    ensures Cycle(p + 2 * n, n) == Cycle(p, n) + 2
  {
    assert Round(p + 2 * n, n) == Round(p + n, n) + 1;
  }

  /** Later positions of a slot are whole laps away, and their cycles grow by twos. */
  lemma {:induction false} SamePlace(p: nat, q: nat, n: nat)
    requires n > 0 && p < q && Place(p, n) == Place(q, n)
    ensures p + 2 * n <= q && Cycle(p, n) + 2 <= Cycle(q, n)
    ensures (Cycle(q, n) - Cycle(p, n)) % 2 == 0
    decreases q
  {
    SameSlot(p, q, 2 * n);
    var r := q - 2 * n;
    NextLap(r, n);
    if p < r {
      SamePlace(p, r, n);
    }
  }

  /** Tags order the positions of a slot: a filled tag is between two empty ones. */
  lemma TagOrder(p: nat, q: nat, n: nat)
    requires n > 0 && Place(p, n) == Place(q, n)
    ensures Cycle(p, n) != Cycle(q, n) + 1
    ensures Cycle(p, n) <= Cycle(q, n) <==> p <= q
    ensures Cycle(p, n) == Cycle(q, n) <==> p == q
  {
    if p < q {
      SamePlace(p, q, n);
    } else if q < p {
      SamePlace(q, p, n);
    }
  }

  lemma Within(p: nat, q: nat, n: nat)
    requires n > 0 && Place(p, n) == Place(q, n) && p < q + 2 * n && q < p + 2 * n
    ensures p == q
  {
    if p < q {
      SamePlace(p, q, n);
    } else if q < p {
      SamePlace(q, p, n);
    }
  }
}
