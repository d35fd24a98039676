/** Machine integers and the bit arithmetic of ring slots and publication markers. */
module Bits {

  const TWO_62: nat := 0x4000_0000_0000_0000
  const TWO_63: nat := 0x8000_0000_0000_0000
  const TWO_64: nat := 0x1_0000_0000_0000_0000

  newtype int64 = x: int | -0x8000_0000_0000_0000 <= x < 0x8000_0000_0000_0000

  const MAX_INT64: int64 := 0x7FFF_FFFF_FFFF_FFFF

  /** Go's conversion of an int64 to uint64. */
  function ToUint64(x: int): nat {
    x % TWO_64
  }

  /** Go's conversion of a uint64 to int64. */
  function ToInt64(u: nat): (x: int)
    ensures -0x8000_0000_0000_0000 <= x < 0x8000_0000_0000_0000
  {
    if u % TWO_64 < TWO_63 then u % TWO_64 else u % TWO_64 - TWO_64
  }

  // Bitwise operators on unsigned words, digit by digit.

  function And(a: nat, b: nat): nat {
    if a == 0 || b == 0 then 0
    else 2 * And(a / 2, b / 2) + (if a % 2 == 1 && b % 2 == 1 then 1 else 0)
  }

  function Or(a: nat, b: nat): nat
    decreases a + b
  {
    if a == 0 && b == 0 then 0
    else 2 * Or(a / 2, b / 2) + (if a % 2 == 1 || b % 2 == 1 then 1 else 0)
  }

  function ShiftRight(a: nat, k: nat): nat {
    if k == 0 then a else ShiftRight(a / 2, k - 1)
  }

  function TrailingZeros(a: nat): nat
    requires a > 0
  {
    if a % 2 == 1 then 0 else 1 + TrailingZeros(a / 2)
  }

  function Pow2(k: nat): (p: nat)
    ensures p >= 1
  {
    if k == 0 then 1 else 2 * Pow2(k - 1)
  }

  /** The test `New` applies to a ring size. */
  predicate SizeAccepted(size: int) {
    size >= 1 && And(size, size - 1) == 0
  }

  lemma {:induction false} AndSelf(a: nat)
    ensures And(a, a) == a
  {
    if a > 0 {
      AndSelf(a / 2);
    }
  }

  /** `New` accepts exactly the powers of two, and a size's trailing zeros are its exponent. */
  lemma {:induction false} AcceptedSizesArePowersOfTwo(size: nat)
    requires size >= 1
    ensures SizeAccepted(size) <==> size == Pow2(TrailingZeros(size))
  {
    var half := size / 2;
    if size % 2 == 1 {
      if half > 0 {
        assert (size - 1) / 2 == half;
        AndSelf(half);
      }
    } else {
      assert (size - 1) / 2 == half - 1;
      AcceptedSizesArePowersOfTwo(half);
    }
  }

  lemma {:induction false} PowersEndInZeros(k: nat)
    ensures TrailingZeros(Pow2(k)) == k
  {
    if k > 0 {
      PowersEndInZeros(k - 1);
    }
  }

  /** Every power of two is accepted. */
  lemma PowersOfTwoAccepted(k: nat)
    ensures SizeAccepted(Pow2(k))
  {
    PowersEndInZeros(k);
    AcceptedSizesArePowersOfTwo(Pow2(k));
  }

  /** `New` accepts a size if and only if it is a power of two. */
  lemma AcceptsExactlyPowersOfTwo(size: int)
    ensures SizeAccepted(size) <==> exists k: nat :: size == Pow2(k)
  {
    if SizeAccepted(size) {
      AcceptedSizesArePowersOfTwo(size);
    }
    forall k: nat | size == Pow2(k) ensures SizeAccepted(size) {
      PowersOfTwoAccepted(k);
    }
  }

  lemma ModDouble(s: nat, m: nat)
    requires m > 0
    ensures s % (2 * m) == 2 * ((s / 2) % m) + s % 2
    ensures s / (2 * m) == (s / 2) / m
  {
    var q, r := (s / 2) / m, (s / 2) % m;
    assert s / 2 == m * q + r;
    assert s == (2 * m) * q + (2 * r + s % 2);
    DivModUnique(s, 2 * m, q, 2 * r + s % 2);
  }

  lemma Multiples(d: int, e: int)
    requires d > 0
    ensures e >= 1 ==> d * e >= d
    ensures e <= -1 ==> d * e <= -d
  {
    if e >= 1 {
      assert d * e == d + d * (e - 1);
    } else if e <= -1 {
      assert d * e == -d + d * (e + 1);
    }
  }

  lemma DivModUnique(s: int, d: int, q: int, r: int)
    requires d > 0 && 0 <= r < d && s == d * q + r
    ensures s / d == q && s % d == r
  {
    var e := s / d - q;
    assert s == d * (s / d) + s % d;
    assert d * e == d * (s / d) - d * q == r - s % d;
    Multiples(d, e);
  }

  lemma {:induction false} MaskIsMod(s: nat, k: nat)
    ensures And(s, Pow2(k) - 1) == s % Pow2(k)
    ensures ShiftRight(s, k) == s / Pow2(k)
  {
    if k > 0 {
      var m := Pow2(k - 1);
      MaskIsMod(s / 2, k - 1);
      ModDouble(s, m);
      assert (2 * m - 1) / 2 == m - 1;
      if s == 0 {
        assert 0 % (2 * m) == 0;
      }
    }
  }

  // Markers

  const UNRESOLVED: nat := 0
  const PUBLISHED: nat := 1
  const DISCARDED: nat := 2

  /** The word stored for a slot: the lap flag shifted left by two, or-ed with the state. */
  function PublicationValue(flag: int, state: nat): (x: int)
    ensures -0x8000_0000_0000_0000 <= x < 0x8000_0000_0000_0000
  {
    ToInt64(Or((ToUint64(flag) * 4) % TWO_64, state))
  }

  lemma {:induction false} OrWithZero(x: nat)
    ensures Or(x, 0) == x
  {
    if x > 0 {
      OrWithZero(x / 2);
    }
  }

  lemma OrLowBits(x: nat, state: nat)
    requires state < 4
    ensures Or(4 * x, state) == 4 * x + state
  {
    OrWithZero(x);
    if 4 * x + state > 0 {
      assert (4 * x) / 2 == 2 * x && (2 * x) / 2 == x;
      assert state / 2 / 2 == 0;
      assert Or(2 * x, state / 2) == 2 * x + state / 2;
    }
  }

  lemma PublicationWord(flag: int, state: nat)
    requires state < 4
    ensures PublicationValue(flag, state) == ToInt64(4 * (flag % TWO_62) + state)
    ensures 4 * (flag % TWO_62) + state < TWO_64
  {
    assert (ToUint64(flag) * 4) % TWO_64 == 4 * (flag % TWO_62);
    OrLowBits(flag % TWO_62, state);
  }

  lemma WordsCollide(x: nat, y: nat, a: nat, b: nat)
    requires x < TWO_62 && y < TWO_62 && a < 4 && b < 4
    ensures ToInt64(4 * x + a) == ToInt64(4 * y + b) <==> x == y && a == b
  {
    var u, v := 4 * x + a, 4 * y + b;
    assert u < TWO_64 && v < TWO_64;
    assert ToInt64(u) == (if u < TWO_63 then u else u - TWO_64);
    assert ToInt64(v) == (if v < TWO_63 then v else v - TWO_64);
  }

  /** Two markers are the same word exactly when their flags agree in the low 62 bits. */
  lemma MarkersCollideExactlyWhen(f: int, g: int, a: nat, b: nat)
    requires a < 3 && b < 3
    ensures PublicationValue(f, a) == PublicationValue(g, b) <==> f % TWO_62 == g % TWO_62 && a == b
  {
    PublicationWord(f, a);
    PublicationWord(g, b);
    WordsCollide(f % TWO_62, g % TWO_62, a, b);
  }

  /** No marker is the word a slot holds before its first claim. */
  lemma MarkerIsNeverInitial(f: int, a: nat)
    requires a < 3
    ensures PublicationValue(f, a) != -1
  {
    PublicationWord(f, a);
  }

  // Slots

  /** The physical slot of a sequence, as `index` and `Get` compute it. */
  function Index(size: int, sequence: int): nat
    requires size >= 1
  {
    And(ToUint64(sequence), ToUint64(size - 1))
  }

  /** The lap of a sequence, as `flag` computes it. */
  function Flag(size: int, sequence: int): int
    requires size >= 1
  {
    ToInt64(ShiftRight(ToUint64(sequence), TrailingZeros(size)))
  }

  /**
   * For a size `New` accepts, mask and shift are remainder and quotient, and together they
   * determine the sequence.
   */
  lemma SlotArithmetic(size: int, s: int)
    requires SizeAccepted(size) && size < TWO_63
    requires 0 <= s < TWO_63
    ensures Index(size, s) == s % size && Flag(size, s) == s / size
    ensures s == size * Flag(size, s) + Index(size, s)
  {
    MaskAndShift(size, s);
    QuotientAndRemainder(s, size);
    DivisionShrinks(s, size);
    Narrow(s);
    Narrow(size - 1);
    Narrow(s / size);
  }

  lemma MaskAndShift(size: int, s: nat)
    requires SizeAccepted(size)
    ensures And(s, size - 1) == s % size
    ensures ShiftRight(s, TrailingZeros(size)) == s / size
  {
    var k := TrailingZeros(size);
    MaskIsMod(s, k);
    assert size == Pow2(k) by {
      AcceptedSizesArePowersOfTwo(size);
    }
  }

  lemma QuotientAndRemainder(s: int, d: int)
    requires d > 0
    ensures s == d * (s / d) + s % d
  {
  }

  lemma Narrow(x: int)
    requires 0 <= x < TWO_63
    ensures ToUint64(x) == x && ToInt64(x) == x
  {
  }

  lemma ProductGrows(q: int, d: int, k: int)
    requires q >= 0 && d >= k
    ensures q * d >= q * k
  {
    assert q * d == q * k + q * (d - k);
  }

  lemma DivisionShrinks(s: nat, d: nat)
    requires d > 0
    ensures 0 <= s / d <= s
    ensures d >= 2 ==> 2 * (s / d) <= s
  {
    var q, r := s / d, s % d;
    assert s == d * q + r;
    Multiples(d, q);
    assert q >= 0;
    ProductGrows(q, d, if d >= 2 then 2 else 1);
  }

  lemma FlagFits(size: int, s: int)
    requires SizeAccepted(size) && 2 <= size < TWO_63
    requires 0 <= s < TWO_63
    ensures 0 <= Flag(size, s) < TWO_62
    ensures s == size * Flag(size, s) + Index(size, s)
  {
    SlotArithmetic(size, s);
    DivisionShrinks(s, size);
  }

  /**
   * On a ring of at least two slots, markers of distinct non-negative sequences that share a slot
   * never collide.
   */
  lemma MarkersSeparateLaps(size: int, s: int, t: int, a: nat, b: nat)
    requires SizeAccepted(size) && 2 <= size < TWO_63
    requires 0 <= s < TWO_63 && 0 <= t < TWO_63 && a < 3 && b < 3
    requires Index(size, s) == Index(size, t)
    ensures PublicationValue(Flag(size, s), a) == PublicationValue(Flag(size, t), b) <==> s == t && a == b
  {
    FlagFits(size, s);
    FlagFits(size, t);
    var f, g := Flag(size, s), Flag(size, t);
    assert f == g ==> s == t;
    CollideBelow(f, g, a, b);
  }

  lemma CollideBelow(f: int, g: int, a: nat, b: nat)
    requires 0 <= f < TWO_62 && 0 <= g < TWO_62 && a < 3 && b < 3
    ensures PublicationValue(f, a) == PublicationValue(g, b) <==> f == g && a == b
  {
    MarkersCollideExactlyWhen(f, g, a, b);
    LowBits(f);
    LowBits(g);
  }

  lemma LowBits(f: nat)
    requires f < TWO_62
    ensures f % TWO_62 == f
  {
  }

  lemma SingleSlotFlag(s: int)
    requires 0 <= s < TWO_63
    ensures Flag(1, s) == s && Index(1, s) == 0
  {
    SlotArithmetic(1, s);
  }

  /** With a single slot the guarantee ends at 2^62: two sequences 2^62 apart share every marker. */
  lemma SingleSlotMarkersCollide()
    ensures Index(1, 0) == Index(1, TWO_62)
    ensures PublicationValue(Flag(1, 0), PUBLISHED) == PublicationValue(Flag(1, TWO_62), PUBLISHED)
  {
    SingleSlotFlag(0);
    SingleSlotFlag(TWO_62);
    MarkersCollideExactlyWhen(0, TWO_62, PUBLISHED, PUBLISHED);
  }
}
