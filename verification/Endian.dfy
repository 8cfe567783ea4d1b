/** Fixed-width integers as bytes. */
module Endian {
  import opened Basics

  function Pow256(k: nat): (p: nat)
    ensures p >= 1
  {
    if k == 0 then 1 else 256 * Pow256(k - 1)
  }

  lemma Pow256Values()
    ensures Pow256(2) == 0x1_0000 && Pow256(4) == TWO_32 && Pow256(8) == TWO_64
  {
    assert Pow256(2) == 256 * Pow256(1);
    assert Pow256(4) == 256 * (256 * Pow256(2));
    assert Pow256(6) == 256 * (256 * Pow256(4));
    assert Pow256(8) == 256 * (256 * Pow256(6));
  }

  /** The low k bytes of n, most significant first. */
  function BigEndian(n: nat, k: nat): (b: Bytes)
    ensures |b| == k
  {
    if k == 0 then [] else BigEndian(n / 256, k - 1) + [n % 256]
  }

  function FromBigEndian(b: Bytes): nat {
    if b == [] then 0 else 256 * FromBigEndian(b[..|b| - 1]) + b[|b| - 1]
  }

  lemma DivBelow(n: nat, p: nat)
    requires n < 256 * p
    ensures n / 256 < p
  {}

  lemma {:induction false} BigEndianRoundTrip(n: nat, k: nat)
    requires n < Pow256(k)
    ensures FromBigEndian(BigEndian(n, k)) == n
  {
    if k > 0 {
      DivBelow(n, Pow256(k - 1));
      BigEndianRoundTrip(n / 256, k - 1);
      var b := BigEndian(n, k);
      assert b[..k - 1] == BigEndian(n / 256, k - 1) && b[k - 1] == n % 256;
    }
  }

  lemma {:induction false} FromBigEndianBound(b: Bytes)
    ensures FromBigEndian(b) < Pow256(|b|)
  {
    if b != [] { FromBigEndianBound(b[..|b| - 1]); }
  }

  lemma {:induction false} FromBigEndianBack(b: Bytes)
    ensures BigEndian(FromBigEndian(b), |b|) == b
  {
    if b != [] {
      FromBigEndianBack(b[..|b| - 1]);
      assert FromBigEndian(b) / 256 == FromBigEndian(b[..|b| - 1]) && FromBigEndian(b) % 256 == b[|b| - 1];
    }
  }

  /** Four bytes, the most significant first. */
  lemma FourBigEndian(n: nat)
    ensures BigEndian(n, 4) == [n / 0x100_0000 % 256, n / 0x1_0000 % 256, n / 256 % 256, n % 256]
  {
    BytesOf(n);
    assert BigEndian(n, 1) == [n % 256] by { assert BigEndian(n / 256, 0) == []; }
    assert BigEndian(n / 256 / 256 / 256, 1) == [n / 256 / 256 / 256 % 256] by { assert BigEndian(n / 256 / 256 / 256 / 256, 0) == []; }
    assert BigEndian(n / 256 / 256, 2) == BigEndian(n / 256 / 256 / 256, 1) + [n / 256 / 256 % 256];
    assert BigEndian(n / 256, 3) == BigEndian(n / 256 / 256, 2) + [n / 256 % 256];
  }

  /** A 32-bit word read as a signed integer. */
  function Signed32(n: nat): int
    requires n < TWO_32
  {
    if n < TWO_31 then n else n - TWO_32
  }

  /** A signed integer as a 32-bit word. */
  function Unsigned32(n: int): (u: nat)
    ensures u < TWO_32
    ensures -TWO_31 <= n < TWO_31 ==> Signed32(u) == n
  {
    n % TWO_32
  }

  /** The word at an offset, least significant byte first. */
  function LE16(b: Bytes, i: nat): (n: nat)
    requires i + 2 <= |b|
    ensures n < 0x1_0000
  {
    var lo: int, hi: int := b[i], b[i + 1];
    lo + 256 * hi
  }

  function LE32(b: Bytes, i: nat): (n: nat)
    requires i + 4 <= |b|
    ensures n < TWO_32
  {
    LE16(b, i) + 0x1_0000 * LE16(b, i + 2)
  }

  /** The low bytes of n, least significant first. */
  function Put16(n: nat): (b: Bytes)
    ensures |b| == 2
  {
    [n % 256, n / 256 % 256]
  }

  function Put32(n: nat): (b: Bytes)
    ensures |b| == 4
  {
    [n % 256, n / 256 % 256, n / 0x1_0000 % 256, n / 0x100_0000 % 256]
  }

  lemma BytesOf(n: nat)
    ensures n / 0x1_0000 == n / 256 / 256 && n / 0x100_0000 == n / 256 / 256 / 256
    ensures n / TWO_32 == n / 256 / 256 / 256 / 256
  {}

  lemma LittleEndianRoundTrip(n: nat)
    ensures LE16(Put16(n), 0) == n % 0x1_0000
    ensures LE32(Put32(n), 0) == n % TWO_32
  {
    BytesOf(n);
    var a, b, c, d := n / 256, n / 256 / 256, n / 256 / 256 / 256, n / 256 / 256 / 256 / 256;
    assert n == 256 * a + n % 256 && a == 256 * b + a % 256 && b == 256 * c + b % 256 && c == 256 * d + c % 256;
    assert LE16(Put16(n), 0) == n % 256 + 256 * (a % 256);
    assert LE32(Put32(n), 0) == n % 256 + 256 * (a % 256) + 0x1_0000 * (b % 256) + 0x100_0000 * (c % 256);
    assert n % 0x1_0000 == n - 0x1_0000 * b && n % TWO_32 == n - TWO_32 * d;
  }
}
