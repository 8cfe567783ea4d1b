/** Bit masks and shifts on natural numbers, and the scaling of a masked colour channel
    (internal/clipboard/image.go). */
module Bits {
  import opened Basics

  function Pow2(k: nat): (p: nat)
    ensures p >= 1
  {
    if k == 0 then 1 else 2 * Pow2(k - 1)
  }

  /** The bitwise and. */
  function And(a: nat, b: nat): (r: nat)
    ensures r <= a && r <= b
  {
    if a == 0 || b == 0 then 0
    else (if a % 2 == 1 && b % 2 == 1 then 1 else 0) + 2 * And(a / 2, b / 2)
  }

  lemma {:induction false} AndSelf(a: nat)
    ensures And(a, a) == a
  {
    if a > 0 { AndSelf(a / 2); }
  }

  lemma MulMonotone(a: nat, b: nat, m: nat)
    requires a <= b
    ensures a * m <= b * m
  {}

  lemma DivModUnique(a: nat, m: nat, q: nat, r: nat)
    requires m > 0 && a == q * m + r && r < m
    ensures a / m == q && a % m == r
  {
    var q', r' := a / m, a % m;
    assert a == q' * m + r';
    if q' < q { MulMonotone(q' + 1, q, m); }
    if q < q' { MulMonotone(q + 1, q', m); }
  }

  lemma ModDouble(a: nat, p: nat)
    requires p > 0
    ensures a % (2 * p) == 2 * (a / 2 % p) + a % 2
  {
    var half := a / 2;
    var q, r := half / p, half % p;
    assert half == q * p + r;
    assert q * (2 * p) == 2 * (q * p);
    DivModUnique(a, 2 * p, q, 2 * r + a % 2);
  }

  lemma AndOdd(a: nat, b: nat)
    ensures And(a, 2 * b + 1) == 2 * And(a / 2, b) + a % 2
  {}

  lemma {:induction false} AndLowBits(a: nat, k: nat)
    ensures And(a, Pow2(k) - 1) == Low(a, k)
  {
    if k > 0 {
      assert Pow2(k) == 2 * Pow2(k - 1);
      hide Low, And, Pow2;
      AndLowBits(a / 2, k - 1);
      LowStep(a, k);
      AndOdd(a, Pow2(k - 1) - 1);
    }
  }

  /** The k low bits of a. */
  function Low(a: nat, k: nat): (r: nat)
    ensures r < Pow2(k)
  {
    a % Pow2(k)
  }

  lemma LowStep(a: nat, k: nat)
    requires k > 0
    ensures Low(a, k) == 2 * Low(a / 2, k - 1) + a % 2
  {
    ModDouble(a, Pow2(k - 1));
  }

  /** Integer division. */
  function Quotient(a: nat, m: nat): nat
    requires m > 0
  {
    a / m
  }

  /** A mask without its trailing zero bits, and how many there were. */
  function Strip(mask: nat): (m: nat)
    requires mask > 0
    ensures 0 < m <= mask
  {
    if mask % 2 == 0 then Strip(mask / 2) else mask
  }

  function Shift(mask: nat): nat
    requires mask > 0
  {
    if mask % 2 == 0 then 1 + Shift(mask / 2) else 0
  }

  lemma {:induction false} StripShift(mask: nat)
    requires mask > 0
    ensures mask == Strip(mask) * Pow2(Shift(mask))
  {
    if mask % 2 == 0 {
      StripShift(mask / 2);
      var s, p := Strip(mask / 2), Pow2(Shift(mask / 2));
      assert s * (2 * p) == 2 * (s * p);
    }
  }

  /** The masked bits of v, moved down. */
  function Field(v: nat, mask: nat): (f: nat)
    requires mask > 0
    ensures f <= Strip(mask)
  {
    And(Quotient(v, Pow2(Shift(mask))), Strip(mask))
  }

  /** The field scaled to 0..255 as the program computes it: the product wraps at 32 bits
      and the quotient is cut to 8. */
  function Channel(v: nat, mask: nat): byte {
    if mask == 0 then 0 else Quotient(Field(v, mask) * 255 % TWO_32, Strip(mask)) % 256
  }

  method ComputeChannel(v: nat, wholeMask: nat) returns (c: byte)
    requires v < TWO_32 && wholeMask < TWO_32
    ensures c == Channel(v, wholeMask)
  {
    if wholeMask == 0 { return 0; }
    var mask, shift := wholeMask, 0;
    while mask % 2 == 0
      invariant 0 < mask <= wholeMask
      invariant Strip(mask) == Strip(wholeMask) && shift + Shift(mask) == Shift(wholeMask)
      decreases mask
    {
      mask, shift := mask / 2, shift + 1;
    }
    var val := And(v / Pow2(shift), mask);
    c := Quotient(val * 255 % TWO_32, mask) % 256;
  }

  lemma QuotientBound(a: nat, k: nat, m: nat)
    requires m > 0 && a <= k * m
    ensures Quotient(a, m) <= k
  {}

  lemma QuotientGap(a: nat, b: nat, m: nat)
    requires m > 0 && a >= b + m
    ensures Quotient(a, m) > Quotient(b, m)
  {}

  lemma QuotientExact(q: nat, m: nat)
    requires m > 0
    ensures Quotient(q * m, m) == q
  {
    DivModUnique(q * m, m, q, 0);
  }

  lemma ScaledIsExact(f: nat, m: nat)
    requires f <= m && 0 < m < TWO_32
    ensures Quotient(f * 255 % TWO_32, m) % 256 == Quotient(f * 255, m) <==> f * 255 < TWO_32
  {
    hide Quotient;
    QuotientBound(f * 255, 255, m);
    var rem := f * 255 % TWO_32;
    QuotientBound(rem, 255, m);
    if f * 255 >= TWO_32 { QuotientGap(f * 255, rem, m); }
  }

  /** The field scaled without wrapping. */
  function Exact(v: nat, mask: nat): nat
    requires mask > 0
  {
    Quotient(Field(v, mask) * 255, Strip(mask))
  }

  /** The channel is the scaled field exactly when the product does not wrap. */
  lemma ChannelIsExact(v: nat, mask: nat)
    requires 0 < mask < TWO_32
    ensures Channel(v, mask) == Exact(v, mask) <==> Field(v, mask) * 255 < TWO_32
  {
    ScaledIsExact(Field(v, mask), Strip(mask));
    hide Field, Strip, Quotient;
  }

  /** It is exact for every pixel exactly when the mask, shifted down, is at most
      16843009; a mask of 25 or more adjacent bits is not. */
  lemma ChannelAlwaysExact(mask: nat)
    requires 0 < mask < TWO_32
    ensures (forall v: nat | v < TWO_32 :: Channel(v, mask) == Exact(v, mask)) <==> Strip(mask) <= 16843009
  {
    FieldOfMask(mask);
    hide Channel, Exact, Field, Strip;
    forall v: nat ensures Channel(v, mask) == Exact(v, mask) <==> Field(v, mask) * 255 < TWO_32 {
      ChannelIsExact(v, mask);
    }
  }

  lemma FieldOfMask(mask: nat)
    requires mask > 0
    ensures Field(mask, mask) == Strip(mask)
  {
    StripShift(mask);
    AndSelf(Strip(mask));
    QuotientExact(Strip(mask), Pow2(Shift(mask)));
    hide Strip, Shift, And, Pow2, Quotient;
  }

  /** The mask of k adjacent bits from bit s up. */
  function Adjacent(k: nat, s: nat): nat {
    (Pow2(k) - 1) * Pow2(s)
  }

  /** The number those bits of v hold. */
  function Slice(v: nat, k: nat, s: nat): (f: nat)
    ensures f < Pow2(k)
  {
    Low(Quotient(v, Pow2(s)), k)
  }

  lemma {:induction false} AdjacentStrips(k: nat, s: nat)
    requires k > 0
    ensures Adjacent(k, s) > 0 && Strip(Adjacent(k, s)) == Pow2(k) - 1 && Shift(Adjacent(k, s)) == s
  {
    if s == 0 {
      assert Adjacent(k, 0) == 2 * Pow2(k - 1) - 1;
    } else {
      AdjacentStrips(k, s - 1);
      AdjacentDoubles(k, s);
      hide Adjacent, Pow2;
      assert Adjacent(k, s) / 2 == Adjacent(k, s - 1);
    }
  }

  lemma AdjacentDoubles(k: nat, s: nat)
    requires s > 0
    ensures Adjacent(k, s) == 2 * Adjacent(k, s - 1)
  {
    var ones, p := Pow2(k) - 1, Pow2(s - 1);
    assert Pow2(s) == 2 * p;
    assert ones * (2 * p) == 2 * (ones * p);
  }

  lemma {:induction false} Pow2Grows(j: nat, k: nat)
    requires j <= k
    ensures Pow2(j) <= Pow2(k)
    decreases k
  {
    if j < k { Pow2Grows(j, k - 1); }
  }

  lemma AdjacentField(v: nat, k: nat, s: nat)
    requires k > 0
    ensures Adjacent(k, s) > 0 && Field(v, Adjacent(k, s)) == Slice(v, k, s)
  {
    AdjacentStrips(k, s);
    AndLowBits(Quotient(v, Pow2(s)), k);
    hide Strip, Shift, And, Pow2, Adjacent, Quotient, Low;
  }

  lemma HalfOfQuotient(v: nat, p: nat)
    requires p > 0
    ensures Quotient(v, p) / 2 == Quotient(v, 2 * p)
  {
    var q, r := v / p, v % p;
    assert v == q * p + r;
    var h := q / 2;
    assert q == 2 * h + q % 2;
    MulMonotone(q % 2, 1, p);
    assert (2 * h + q % 2) * p == h * (2 * p) + (q % 2) * p;
    DivModUnique(v, 2 * p, h, (q % 2) * p + r);
  }

  /** A number of k bits is its upper k-1 bits followed by its lowest. */
  lemma SliceStep(v: nat, k: nat, s: nat)
    requires k > 0
    ensures Slice(v, k, s) == 2 * Slice(v, k - 1, s + 1) + Slice(v, 1, s)
  {
    hide Quotient, Low;
    var a := Quotient(v, Pow2(s));
    LowStep(a, k);
    LowStep(a, 1);
    HalfOfQuotient(v, Pow2(s));
    assert Low(a / 2, 0) == 0;
  }

  lemma Pow2Values()
    ensures Pow2(8) == 256 && Pow2(16) == 0x1_0000 && Pow2(24) == 0x100_0000
  {
    assert Pow2(4) == 16;
    assert Pow2(12) == 4096;
    assert Pow2(20) == 0x10_0000;
  }

  /** For a mask of k adjacent bits, at most 24, from bit s up, the channel is the number
      they hold scaled from 0..2^k-1 to 0..255. */
  lemma ChannelOfAdjacent(v: nat, k: nat, s: nat)
    requires 0 < k <= 24 && Adjacent(k, s) < TWO_32
    ensures Pow2(k) > 1 && Channel(v, Adjacent(k, s)) == Quotient(Slice(v, k, s) * 255, Pow2(k) - 1)
  {
    assert 1 < Pow2(k) <= 0x100_0000 by {
      Pow2Grows(1, k);
      Pow2Grows(k, 24);
      Pow2Values();
    }
    hide Channel, Field, Strip, Slice, Shift, Adjacent, Quotient, Pow2;
    AdjacentStrips(k, s);
    AdjacentField(v, k, s);
    ChannelIsExact(v, Adjacent(k, s));
  }

  lemma ByteSlices(v: nat)
    ensures Slice(v, 8, 0) == v % 256 && Slice(v, 8, 8) == v / 256 % 256 && Slice(v, 8, 16) == v / 0x1_0000 % 256
    ensures Adjacent(8, 0) == 0xff && Adjacent(8, 8) == 0xff00 && Adjacent(8, 16) == 0xff_0000
  {
    Pow2Values();
    assert Pow2(0) == 1;
    hide Pow2;
  }

  /** The three byte-wide masks of a plain 32-bit bitmap read back the bytes. */
  lemma ByteChannels(v: nat)
    ensures Channel(v, 0xff) == v % 256
    ensures Channel(v, 0xff00) == v / 256 % 256
    ensures Channel(v, 0xff_0000) == v / 0x1_0000 % 256
  {
    Pow2Values();
    ByteSlices(v);
    hide Channel, Slice, Adjacent, Pow2, Quotient;
    ChannelOfAdjacent(v, 8, 0);
    ChannelOfAdjacent(v, 8, 8);
    ChannelOfAdjacent(v, 8, 16);
    QuotientExact(Slice(v, 8, 0), 255);
    QuotientExact(Slice(v, 8, 8), 255);
    QuotientExact(Slice(v, 8, 16), 255);
  }
}
