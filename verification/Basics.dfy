/** Small vocabulary shared by every module: optional values, bytes, the byte-wise
    order of strings and the decimal rendering of integers. */
module Basics {

  datatype Option<+T> = None | Some(value: T)

  type byte = b: int | 0 <= b < 256 witness 0

  type Bytes = seq<byte>

  const TWO_31 := 0x8000_0000
  const TWO_32 := 0x1_0000_0000
  const TWO_63 := 0x8000_0000_0000_0000
  const TWO_64 := 0x1_0000_0000_0000_0000
  const MAX_INT64 := TWO_63 - 1

  /** Conversion to a signed 64-bit integer, as Go's int64 arithmetic wraps. */
  function Wrap64(n: int): (r: int)
    ensures -TWO_63 <= r < TWO_63
    ensures -TWO_63 <= n < TWO_63 ==> r == n
  {
    (n + TWO_63) % TWO_64 - TWO_63
  }

  /** Go's `<` on strings: lexicographic by byte. A Go string is a sequence of
      characters, each standing for one byte. */
  predicate Before(a: string, b: string) {
    b != [] && (a == [] || a[0] < b[0] || (a[0] == b[0] && Before(a[1..], b[1..])))
  }

  lemma {:induction false} BeforeIrreflexive(a: string)
    ensures !Before(a, a)
  {
    if a != [] { BeforeIrreflexive(a[1..]); }
  }

  lemma {:induction false} BeforeTransitive(a: string, b: string, c: string)
    requires Before(a, b) && Before(b, c)
    ensures Before(a, c)
  {
    if a != [] && a[0] == b[0] && b[0] == c[0] { BeforeTransitive(a[1..], b[1..], c[1..]); }
  }

  lemma {:induction false} BeforeTotal(a: string, b: string)
    ensures Before(a, b) || a == b || Before(b, a)
  {
    if a != [] && b != [] && a[0] == b[0] {
      BeforeTotal(a[1..], b[1..]);
      assert a == [a[0]] + a[1..] && b == [b[0]] + b[1..];
    }
  }

  /** After the longest common start one string has ended or has the smaller character. */
  lemma {:induction false} BeforeIsLexicographic(a: string, b: string)
    ensures Before(a, b) <==> exists k: nat :: k <= |a| && k < |b| && a[..k] == b[..k] && (k == |a| || a[k] < b[k])
  {
    if b != [] && a != [] && a[0] == b[0] {
      BeforeIsLexicographic(a[1..], b[1..]);
      if Before(a, b) {
        var k: nat :| k <= |a[1..]| && k < |b[1..]| && a[1..][..k] == b[1..][..k] && (k == |a[1..]| || a[1..][k] < b[1..][k]);
        assert a[..k + 1] == [a[0]] + a[1..][..k] && b[..k + 1] == [b[0]] + b[1..][..k];
      }
      forall k: nat | k <= |a| && k < |b| && a[..k] == b[..k] && (k == |a| || a[k] < b[k]) ensures Before(a, b) {
        assert k > 0;
        assert a[1..][..k - 1] == a[..k][1..] == b[..k][1..] == b[1..][..k - 1];
      }
    } else if Before(a, b) {
      assert a[..0] == b[..0];
    }
  }

  const DIGITS := "0123456789"

  /** Decimal digits of a natural number, most significant first. */
  function Digits(n: nat): (s: string)
    ensures |s| >= 1
    ensures forall c | c in s :: '0' <= c <= '9'
  {
    if n < 10 then [DIGITS[n]] else Digits(n / 10) + [DIGITS[n % 10]]
  }

  /** The number a string of digits stands for. */
  function Value(s: string): int {
    if s == [] then 0 else 10 * Value(s[..|s| - 1]) + (s[|s| - 1] as int - '0' as int)
  }

  /** Decimal, with no leading zeros. */
  lemma {:induction false} DigitsAreDecimal(n: nat)
    ensures Value(Digits(n)) == n && (n >= 10 ==> Digits(n)[0] != '0')
  {
    if n >= 10 {
      DigitsAreDecimal(n / 10);
      assert Digits(n)[..|Digits(n)| - 1] == Digits(n / 10);
      assert DIGITS[n % 10] as int == '0' as int + n % 10;
    } else {
      assert DIGITS[n] as int == '0' as int + n;
      assert [DIGITS[n]][..0] == [];
    }
  }

  lemma {:induction false} DigitsInjective(m: nat, n: nat)
    requires Digits(m) == Digits(n)
    ensures m == n
  {
    var s, t := Digits(m), Digits(n);
    assert s[|s| - 1] == DIGITS[m % 10] && t[|t| - 1] == DIGITS[n % 10];
    assert m % 10 == n % 10;
    if m >= 10 && n >= 10 {
      assert Digits(m / 10) == s[..|s| - 1] && Digits(n / 10) == t[..|t| - 1];
      DigitsInjective(m / 10, n / 10);
    }
  }

  /** strconv.FormatInt in base 10. */
  function FormatInt(n: int): (s: string)
    ensures forall c | c in s :: c == '-' || '0' <= c <= '9'
  {
    if n < 0 then "-" + Digits(-n) else Digits(n)
  }

  lemma FormatIntInjective(m: int, n: int)
    requires FormatInt(m) == FormatInt(n)
    ensures m == n
  {
    var s, t := FormatInt(m), FormatInt(n);
    if m >= 0 { assert s[0] in Digits(m); }
    if n >= 0 { assert t[0] in Digits(n); }
    if m < 0 && n < 0 {
      assert Digits(-m) == s[1..] && Digits(-n) == t[1..];
      DigitsInjective(-m, -n);
    } else if m >= 0 && n >= 0 {
      DigitsInjective(m, n);
    }
  }

  lemma {:induction false} SubsetIsNoLarger<A>(s: set<A>, t: set<A>)
    requires s <= t
    ensures |s| <= |t|
  {
    if s != {} {
      var x :| x in s;
      SubsetIsNoLarger(s - {x}, t - {x});
    }
  }
}
