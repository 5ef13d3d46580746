/** Bit operations on non-negative words, by halving. */
module Bits {

  function Pow2(k: nat): (r: nat)
    ensures r > 0
  {
    if k == 0 then 1 else 2 * Pow2(k - 1)
  }

  predicate Bit(x: nat, i: nat) {
    if i == 0 then x % 2 == 1 else Bit(x / 2, i - 1)
  }

  /** `x >> k` */
  function Shr(x: nat, k: nat): nat {
    if k == 0 then x else Shr(x / 2, k - 1)
  }

  /** `x | y` */
  function Or(x: nat, y: nat): nat {
    if x == 0 && y == 0 then 0 else 2 * Or(x / 2, y / 2) + (if x % 2 == 1 || y % 2 == 1 then 1 else 0)
  }

  /** `x & y` */
  function And(x: nat, y: nat): nat {
    if x == 0 || y == 0 then 0 else 2 * And(x / 2, y / 2) + (if x % 2 == 1 && y % 2 == 1 then 1 else 0)
  }

  lemma Doubled(k: nat)
    ensures Pow2(k + 1) == 2 * Pow2(k)
  {
  }

  lemma {:induction false} Pow2Monotone(j: nat, k: nat)
    requires j <= k
    ensures Pow2(j) <= Pow2(k)
  {
    if j == k {
    } else {
      Pow2Monotone(j, k - 1);
    }
  }

  lemma Pow2Reflects(j: nat, k: nat)
    requires Pow2(j) < Pow2(k)
    ensures j < k
  {
    if k <= j {
      Pow2Monotone(k, j);
    }
  }

  lemma {:induction false} ShrBit(x: nat, k: nat, i: nat)
    ensures Bit(Shr(x, k), i) == Bit(x, i + k)
    decreases k
  {
    if k == 0 {
    } else {
      ShrBit(x / 2, k - 1, i);
    }
  }

  lemma {:induction false} ShrBelow(x: nat, k: nat, m: nat)
    requires x < Pow2(m)
    ensures Shr(x, k) < Pow2(m)
    decreases k
  {
    if k == 0 {
    } else {
      ShrBelow(x / 2, k - 1, m);
    }
  }

  lemma {:induction false} OrBit(x: nat, y: nat, i: nat)
    ensures Bit(Or(x, y), i) <==> Bit(x, i) || Bit(y, i)
    decreases i
  {
    assert Or(x, y) / 2 == Or(x / 2, y / 2);
    if i == 0 {
    } else {
      OrBit(x / 2, y / 2, i - 1);
    }
  }

  lemma {:induction false} OrBelow(x: nat, y: nat, m: nat)
    requires x < Pow2(m) && y < Pow2(m)
    ensures Or(x, y) < Pow2(m)
    decreases m
  {
    if m == 0 {
    } else {
      OrBelow(x / 2, y / 2, m - 1);
    }
  }

  lemma {:induction false} LeadingBit(x: nat, k: nat)
    requires Pow2(k) <= x < 2 * Pow2(k)
    ensures Bit(x, k)
  {
    if k == 0 {
    } else {
      LeadingBit(x / 2, k - 1);
    }
  }

  lemma {:induction false} AllOnes(x: nat, m: nat)
    requires x < Pow2(m) && forall i :: 0 <= i < m ==> Bit(x, i)
    ensures x == Pow2(m) - 1
    decreases m
  {
    if m == 0 {
    } else {
      assert Bit(x, 0);
      forall i | 0 <= i < m - 1
        ensures Bit(x / 2, i)
      {
        assert Bit(x, i + 1);
      }
      AllOnes(x / 2, m - 1);
    }
  }

  /** Masking with `2^k - 1` is the remainder and shifting by `k` the quotient by `2^k`. */
  lemma {:induction false} MaskShift(x: nat, k: nat)
    ensures And(x, Pow2(k) - 1) < Pow2(k)
    ensures x == Pow2(k) * Shr(x, k) + And(x, Pow2(k) - 1)
    decreases k
  {
    if k == 0 {
    } else {
      var h := Pow2(k - 1);
      MaskShift(x / 2, k - 1);
      MaskHalf(x, h);
      TwiceProduct(h, Shr(x / 2, k - 1));
    }
  }

  lemma MaskHalf(x: nat, h: nat)
    requires h > 0
    ensures And(x, 2 * h - 1) == 2 * And(x / 2, h - 1) + x % 2
  {
    assert (2 * h - 1) / 2 == h - 1 && (2 * h - 1) % 2 == 1;
  }

  lemma TwiceProduct(a: nat, b: nat)
    ensures (2 * a) * b == 2 * (a * b)
  {
  }
}

/**
 The capacity arithmetic every queue rests on: the bit-smearing round-up of options.go, the
 order loop of the constructors, and `& mask` and `>> order` on positions.
 */
module Capacity {
  import opened Bits
  import opened Ring

  ghost predicate LeastPowerOfTwo(r: int, c: int) {
    && (exists k: nat :: r == Pow2(k))
    && c <= r
    && forall j: nat :: c <= Pow2(j) ==> r <= Pow2(j)
  }

  /** An integer of `b + 1` bits in two's complement; Go's `int` has `b == 63`. */
  predicate IsInt(x: int, b: nat) {
    0 <= x + Pow2(b) && x < Pow2(b)
  }

  /** A sum of two such integers, wrapped around. */
  function Wrap(x: int, b: nat): int {
    if x >= Pow2(b) then x - 2 * Pow2(b) else x
  }

  /** `x` has leading bit `k`, and the `w` bits from there downwards are all set. */
  ghost predicate Smeared(x: nat, k: nat, w: nat) {
    x < Pow2(k + 1) && forall i :: 0 <= i <= k < i + w ==> Bit(x, i)
  }

  /** One line of the round-up doubles the run of ones. */
  lemma Smear(x: nat, k: nat, w: nat)
    requires Smeared(x, k, w)
    ensures Smeared(Or(x, Shr(x, w)), k, 2 * w)
  {
    var y := Or(x, Shr(x, w));
    ShrBelow(x, w, k + 1);
    OrBelow(x, Shr(x, w), k + 1);
    forall i | 0 <= i <= k < i + 2 * w
      ensures Bit(y, i)
    {
      OrBit(x, Shr(x, w), i);
      ShrBit(x, w, i);
      if i + w <= k {
        assert Bit(x, i + w);
      }
    }
  }

  /** The exponent of the leading bit. */
  function Leading(x: nat): (k: nat)
    requires x > 0
    ensures Pow2(k) <= x < Pow2(k + 1)
  {
    if x == 1 then 0 else Leading(x / 2) + 1
  }

  lemma {:induction false} LeadingBelow(x: nat, m: nat)
    requires 0 < x < Pow2(m)
    ensures Leading(x) < m
    decreases m
  {
    if x == 1 {
    } else {
      LeadingBelow(x / 2, m - 1);
    }
  }

  /** Once all bits up to the leading one are set, adding one gives the next power of two. */
  lemma NextPower(c: nat, x: nat)
    requires c >= 2 && Leading(c - 1) < 64 && Smeared(x, Leading(c - 1), 64)
    ensures x + 1 == Pow2(Leading(c - 1) + 1) && LeastPowerOfTwo(x + 1, c)
  {
    var k := Leading(c - 1);
    AllOnes(x, k + 1);
    forall j: nat | c <= Pow2(j)
      ensures Pow2(k + 1) <= Pow2(j)
    {
      if j <= k {
        Pow2Monotone(j, k);
      }
      Pow2Monotone(k + 1, j);
    }
  }

  /** The last addition stays in range exactly for capacities up to half the range. */
  lemma LastAddition(c: int, x: nat, b: nat)
    requires b < 64 && IsInt(c, b + 1) && c >= 2 && Smeared(x, Leading(c - 1), 64)
    ensures c <= Pow2(b) ==> LeastPowerOfTwo(Wrap(x + 1, b + 1), c)
    ensures c > Pow2(b) ==> Wrap(x + 1, b + 1) + Pow2(b + 1) == 0
  {
    LeadingBelow(c - 1, b + 1);
    NextPower(c, x);
    LeadingRange(c - 1, b);
  }

  lemma LeadingRange(x: nat, b: nat)
    requires 0 < x < Pow2(b + 1)
    ensures x < Pow2(b) ==> Pow2(Leading(x) + 1) <= Pow2(b)
    ensures x >= Pow2(b) ==> Leading(x) == b
  {
    LeadingBelow(x, b + 1);
    if x < Pow2(b) {
      LeadingBelow(x, b);
      Pow2Monotone(Leading(x) + 1, b);
    } else {
      LeadingAtLeast(x, b);
    }
  }

  lemma LeadingAtLeast(x: nat, m: nat)
    requires Pow2(m) <= x
    ensures m <= Leading(x)
  {
    if Leading(x) < m {
      Pow2Monotone(Leading(x) + 1, m);
    }
  }

  /**
   roundToPow2: the least power of two from `capacity` on, for every capacity up to 2^62;
   above that the last addition overflows.
   */
  method RoundToPow2(capacity: int) returns (n: int)
    requires IsInt(capacity, 63)
    ensures capacity < 2 ==> n == 2
    ensures 2 <= capacity <= Pow2(62) ==> LeastPowerOfTwo(n, capacity)
    ensures capacity > Pow2(62) ==> n + Pow2(63) == 0
  {
    if capacity < 2 {
      return 2;
    }
    var x: nat := capacity - 1;
    ghost var k := Leading(x);
    LeadingBit(x, k);
    Smear(x, k, 1);
    x := Or(x, Shr(x, 1));
    Smear(x, k, 2);
    x := Or(x, Shr(x, 2));
    Smear(x, k, 4);
    x := Or(x, Shr(x, 4));
    Smear(x, k, 8);
    x := Or(x, Shr(x, 8));
    Smear(x, k, 16);
    x := Or(x, Shr(x, 16));
    Smear(x, k, 32);
    x := Or(x, Shr(x, 32));
    LastAddition(capacity, x, 62);
    n := Wrap(x + 1, 63);
  }

  /** The order loop of the compact constructors: the least exponent that reaches `n`; no shift leaves the word. */
  method Order(n: nat) returns (order: nat)
    requires n <= Pow2(63)
    ensures order <= 63
    ensures n <= Pow2(order) && (order > 0 ==> Pow2(order - 1) < n)
    ensures forall k: nat :: n == Pow2(k) ==> order == k
  {
    order := 0;
    while Pow2(order) < n
      invariant order <= 63
      invariant order > 0 ==> Pow2(order - 1) < n
      decreases n - Pow2(order)
    {
      Pow2Reflects(order, 63);
      order := order + 1;
    }
    forall k: nat | n == Pow2(k)
      ensures order == k
    {
      if k < order {
        Pow2Monotone(k, order - 1);
      } else if order < k {
        Pow2Monotone(order, k - 1);
      }
    }
  }

  /** For a power of two, `p & mask` and `p >> order` are the slot and the round of `p`. */
  lemma MaskIsSlot(p: nat, k: nat)
    ensures And(p, Pow2(k) - 1) == p % Pow2(k) == Slot(p, Pow2(k))
    ensures Shr(p, k) == p / Pow2(k) == Round(p, Pow2(k))
  {
    MaskShift(p, k);
    DivModUnique(p, Pow2(k), Shr(p, k), And(p, Pow2(k) - 1));
    SlotRound(p, Pow2(k));
  }

  /** What a constructor computes from a capacity, and what its indexing means from then on. */
  method Geometry(capacity: int) returns (n: nat, mask: nat, order: nat)
    requires 2 <= capacity <= Pow2(62)
    ensures LeastPowerOfTwo(n, capacity) && n >= 2
    ensures n == Pow2(order)
    ensures forall p: nat :: And(p, mask) == Slot(p, n) == p % n && Shr(p, order) == Round(p, n) == p / n
  {
    Doubled(62);
    n := RoundToPow2(capacity);
    order := Order(n);
    mask := n - 1;
    forall p: nat
      ensures And(p, mask) == Slot(p, n) == p % n && Shr(p, order) == Round(p, n) == p / n
    {
      MaskIsSlot(p, order);
    }
  }
}

/**
 The slot words of the compact queues as the source encodes them: a plain value, or the flag
 bit `b` (63 in the source) with the round below it.
 */
module SlotWords {
  import opened Bits
  import opened Ring
  import opened Capacity
  import opened CompactRing

  /** `v`, or `emptyFlag | round & (emptyFlag - 1)`. */
  function Encode(w: Word, b: nat): nat {
    match w
    case Value(v) => v
    case Empty(round) => Or(Pow2(b), And(round, Pow2(b) - 1))
  }

  lemma {:induction false} FlagAdds(r: nat, b: nat)
    requires r < Pow2(b)
    ensures Or(Pow2(b), r) == Pow2(b) + r
    decreases b
  {
    if b == 0 {
    } else {
      FlagAdds(r / 2, b - 1);
    }
  }

  lemma {:induction false} FlagTest(x: nat, b: nat)
    requires x < 2 * Pow2(b)
    ensures And(x, Pow2(b)) == if x < Pow2(b) then 0 else Pow2(b)
    decreases b
  {
    if b == 0 {
    } else {
      FlagTest(x / 2, b - 1);
    }
  }

  lemma EncodeEmpty(round: nat, b: nat)
    ensures Encode(Empty(round), b) == Pow2(b) + round % Pow2(b)
  {
    MaskIsSlot(round, b);
    FlagAdds(And(round, Pow2(b) - 1), b);
  }

  /**
   A comparison of encoded words is a comparison of words, up to rounds that differ by a
   multiple of 2^63, and the flag test tells values from empty marks.
   */
  lemma EncodingFaithful(w: Word, u: Word, b: nat)
    requires w.Value? ==> w.v < Pow2(b)
    requires u.Value? ==> u.v < Pow2(b)
    ensures Encode(w, b) == Encode(u, b) <==>
      w == u || (w.Empty? && u.Empty? && w.round % Pow2(b) == u.round % Pow2(b))
    ensures And(Encode(w, b), Pow2(b)) != 0 <==> w.Empty?
  {
    if w.Empty? { EncodeEmpty(w.round, b); }
    if u.Empty? { EncodeEmpty(u.round, b); }
    FlagTest(Encode(w, b), b);
  }
}
