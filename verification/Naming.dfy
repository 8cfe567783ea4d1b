/** File names chosen by another device made safe, and made unique in a folder
    (internal/files/files.go). A name is a string of bytes; ranging over one yields
    runes, and building one back encodes them as UTF-8. */
module Naming {
  import opened Basics

  /** A Unicode scalar value. */
  type Rune = r: int | 0 <= r < 0x11_0000 && !(0xD800 <= r < 0xE000) witness 0

  const SLASH := 47
  const BACKSLASH := 92
  const DOT := 46
  const UNDERSCORE := 95
  const NAME_LIMIT := 200
  const EXT_LIMIT := 20

  // ---- UTF-8 ----

  function Byte(n: int): char
    requires 0 <= n < 256
  {
    n as char
  }

  function EncodeRune(r: Rune): (s: string)
    ensures 1 <= |s| <= 4
    ensures r < 128 ==> s == [r as char]
    ensures r >= 128 ==> forall c | c in s :: 128 as char <= c < 256 as char
  {
    if r < 0x80 then [Byte(r)]
    else if r < 0x800 then [Byte(0xC0 + r / 0x40), Byte(0x80 + r % 0x40)]
    else if r < 0x1_0000 then [Byte(0xE0 + r / 0x1000), Byte(0x80 + r / 0x40 % 0x40), Byte(0x80 + r % 0x40)]
    else [Byte(0xF0 + r / 0x4_0000), Byte(0x80 + r / 0x1000 % 0x40), Byte(0x80 + r / 0x40 % 0x40), Byte(0x80 + r % 0x40)]
  }

  function Encode(rs: seq<Rune>): string {
    if rs == [] then "" else EncodeRune(rs[0]) + Encode(rs[1..])
  }

  // ---- SafeName ----

  /** Characters Windows does not allow in a file name, besides separators. */
  predicate Forbidden(r: Rune) {
    r in {60, 62, 58, 34, 124, 63, 42}
  }

  predicate IsSpace(r: Rune) {
    r in {9, 10, 11, 12, 13, 32, 0x85, 0xA0, 0x1680, 0x2028, 0x2029, 0x202F, 0x205F, 0x3000} || 0x2000 <= r <= 0x200A
  }

  /** What follows the last separator, either kind counting as one. */
  function LastPart(rs: seq<Rune>): (s: seq<Rune>)
    ensures forall r | r in s :: r != SLASH && r != BACKSLASH
  {
    if rs == [] then []
    else
      var rest := LastPart(rs[1..]);
      if HasSeparator(rs) then rest else rs
  }

  predicate HasSeparator(rs: seq<Rune>) {
    exists r :: r in rs && (r == SLASH || r == BACKSLASH)
  }

  function CleanRune(r: Rune): Rune {
    if r < 32 || r == 127 || Forbidden(r) then UNDERSCORE else r
  }

  function Clean(rs: seq<Rune>): seq<Rune> {
    seq(|rs|, i requires 0 <= i < |rs| => CleanRune(rs[i]))
  }

  function TrimLeft(rs: seq<Rune>, drop: Rune -> bool): (s: seq<Rune>)
    ensures s != [] ==> !drop(s[0])
    ensures forall r | r in s :: r in rs
  {
    if rs != [] && drop(rs[0]) then TrimLeft(rs[1..], drop) else rs
  }

  function TrimRight(rs: seq<Rune>, drop: Rune -> bool): (s: seq<Rune>)
    ensures s != [] ==> !drop(s[|s| - 1])
    ensures forall r | r in s :: r in rs
  {
    if rs != [] && drop(rs[|rs| - 1]) then TrimRight(rs[..|rs| - 1], drop) else rs
  }

  predicate IsDot(r: Rune) {
    r == DOT
  }

  predicate DotOrSpace(r: Rune) {
    r == DOT || IsSpace(r)
  }

  /** The cleaned and trimmed name, possibly empty. */
  function Trimmed(name: seq<Rune>): seq<Rune> {
    var b := Clean(LastPart(name));
    var spaceless := TrimRight(TrimLeft(b, IsSpace), IsSpace);
    TrimLeft(TrimRight(spaceless, DotOrSpace), IsDot)
  }

  /** filepath.Ext of a name without separators: from the last dot on. */
  function Ext(s: string): (e: string)
    ensures |e| <= |s| && e == s[|s| - |e|..]
  {
    if s == "" then ""
    else
      var e := Ext(s[1..]);
      if e != "" then e else if s[0] == '.' then s else ""
  }

  function Stem(s: string): string {
    s[..|s| - |Ext(s)|]
  }

  function UpperChar(c: char): char {
    if 'a' <= c <= 'z' then ((c as int) - 32) as char else c
  }

  function Upper(s: string): (u: string)
    ensures |u| == |s|
  {
    seq(|s|, i requires 0 <= i < |s| => UpperChar(s[i]))
  }

  const DEVICES := {"CON", "PRN", "AUX", "NUL", "COM1", "COM2", "COM3", "COM4", "COM5", "COM6", "COM7", "COM8", "COM9",
                    "LPT1", "LPT2", "LPT3", "LPT4", "LPT5", "LPT6", "LPT7", "LPT8", "LPT9"}

  /** The name, its extension aside, is one Windows reserves for a device. */
  predicate IsDevice(s: string) {
    Upper(Stem(s)) in DEVICES
  }

  function Named(s: string): string {
    if s == "" then "file" else s
  }

  function Guarded(s: string): string {
    if IsDevice(s) then "_" + s else s
  }

  function Cut(s: string): string {
    if |s| <= NAME_LIMIT then s
    else
      var ext := if |Ext(s)| > EXT_LIMIT then "" else Ext(s);
      s[..NAME_LIMIT - |ext|] + ext
  }

  function SafeName(name: seq<Rune>): string {
    Cut(Guarded(Named(Encode(Trimmed(name)))))
  }

  // ---- What SafeName guarantees ----

  /** A byte that may appear in a safe name. */
  predicate SafeChar(c: char) {
    && 32 as char <= c < 256 as char && c != 127 as char
    && c !in {'/', '\\', '<', '>', ':', '"', '|', '?', '*'}
  }

  predicate AllSafe(s: string) {
    forall c | c in s :: SafeChar(c)
  }

  predicate CleanRunes(rs: seq<Rune>) {
    forall r | r in rs :: r >= 32 && r != 127 && !Forbidden(r) && r != SLASH && r != BACKSLASH
  }

  lemma CleanedIsClean(rs: seq<Rune>)
    requires forall r | r in rs :: r != SLASH && r != BACKSLASH
    ensures CleanRunes(Clean(rs))
  {
    forall r | r in Clean(rs) ensures r >= 32 && r != 127 && !Forbidden(r) && r != SLASH && r != BACKSLASH {
      var i :| 0 <= i < |rs| && Clean(rs)[i] == r;
      assert rs[i] in rs;
    }
  }

  lemma {:induction false} EncodeIsSafe(rs: seq<Rune>)
    requires CleanRunes(rs)
    ensures AllSafe(Encode(rs))
    ensures rs != [] ==> Encode(rs) != "" && (rs[0] != DOT ==> Encode(rs)[0] != '.')
  {
    if rs != [] {
      assert rs[0] in rs && forall r | r in rs[1..] :: r in rs;
      EncodeIsSafe(rs[1..]);
      var head := EncodeRune(rs[0]);
      assert AllSafe(head) by { if rs[0] < 128 { assert head == [rs[0] as char]; } }
      assert head[0] in head;
    }
  }

  lemma TrimmedIsClean(name: seq<Rune>)
    ensures CleanRunes(Trimmed(name))
    ensures Trimmed(name) != [] ==> Trimmed(name)[0] != DOT
  {
    CleanedIsClean(LastPart(name));
  }

  lemma CutKeeps(s: string)
    requires s != "" && AllSafe(s) && s[0] != '.'
    ensures Cut(s) != "" && AllSafe(Cut(s)) && Cut(s)[0] != '.' && |Cut(s)| <= NAME_LIMIT
  {
    if |s| > NAME_LIMIT {
      assert forall c | c in Cut(s) :: c in s;
    }
  }

  /** Whatever the other device calls the file: a name of 1 to 200 bytes, with no
      separator, control or reserved character, that does not start with a dot. */
  lemma SafeNameIsSafe(name: seq<Rune>)
    ensures 1 <= |SafeName(name)| <= NAME_LIMIT && AllSafe(SafeName(name)) && SafeName(name)[0] != '.'
  {
    TrimmedIsClean(name);
    EncodeIsSafe(Trimmed(name));
    var s := Named(Encode(Trimmed(name)));
    assert AllSafe(s) && s[0] != '.';
    assert AllSafe(Guarded(s)) && Guarded(s)[0] != '.';
    CutKeeps(Guarded(s));
  }

  lemma {:induction false} ExtOfPrefixed(c: char, s: string)
    requires c != '.'
    ensures Ext([c] + s) == Ext(s)
  {
    assert ([c] + s)[1..] == s;
  }

  lemma GuardedIsNoDevice(s: string)
    ensures !IsDevice(Guarded(s))
  {
    if IsDevice(s) {
      ExtOfPrefixed('_', s);
      var t := "_" + s;
      assert Stem(t)[0] == '_';
      assert Upper(Stem(t))[0] == '_';
      assert forall d | d in DEVICES :: d[0] != '_';
    }
  }

  lemma DeviceNamesAreShort(s: string)
    requires IsDevice(s)
    ensures |Stem(s)| <= 4
  {
    assert forall d | d in DEVICES :: |d| <= 4;
  }

  lemma InHeadOrTail(s: string, c: char)
    requires s != ""
    ensures c in s <==> s[0] == c || c in s[1..]
  {
    assert s == [s[0]] + s[1..];
  }

  lemma {:induction false} ExtHasOneDot(s: string)
    ensures Ext(s) == "" <==> '.' !in s
    ensures Ext(s) != "" ==> Ext(s)[0] == '.' && '.' !in Ext(s)[1..]
  {
    if s != "" {
      ExtHasOneDot(s[1..]);
      InHeadOrTail(s, '.');
    }
  }

  lemma {:induction false} ExtOfJoin(a: string, e: string)
    requires e != "" && e[0] == '.' && '.' !in e[1..]
    ensures Ext(a + e) == e
  {
    hide Ext;
    if a == "" {
      assert a + e == e;
      ExtOfExt(e);
    } else {
      ExtOfJoin(a[1..], e);
      RestOfJoin(a, e);
      ExtStep(a + e);
    }
  }

  lemma RestOfJoin(a: string, e: string)
    requires a != ""
    ensures a + e != "" && (a + e)[1..] == a[1..] + e
  {}

  lemma ExtOfExt(e: string)
    requires e != "" && e[0] == '.' && '.' !in e[1..]
    ensures Ext(e) == e
  {
    ExtHasOneDot(e[1..]);
  }

  lemma ExtStep(s: string)
    requires s != "" && Ext(s[1..]) != ""
    ensures Ext(s) == Ext(s[1..])
  {}

  /** A device name followed by a dot, and no other dot before the cut. */
  predicate DeviceThenTail(s: string, k: nat)
    requires |s| > NAME_LIMIT
  {
    k <= 4 && s[k] == '.' && Upper(s[..k]) in DEVICES && '.' !in s[k + 1..NAME_LIMIT]
  }

  /** When the extension is too long to keep, the cut can expose a device name that the
      guard, looking at the uncut name, did not see. */
  predicate CutExposesDevice(s: string) {
    |s| > NAME_LIMIT && |Ext(s)| > EXT_LIMIT && exists k: nat | k <= 4 :: DeviceThenTail(s, k)
  }

  lemma StemOfTail(s: string, k: nat)
    requires |s| > NAME_LIMIT && DeviceThenTail(s, k)
    ensures Stem(s[..NAME_LIMIT]) == s[..k]
  {
    var cut := s[..NAME_LIMIT];
    var tail := cut[k..];
    assert tail[1..] == s[k + 1..NAME_LIMIT];
    assert cut == cut[..k] + tail;
    ExtOfJoin(cut[..k], tail);
  }

  lemma DeviceHasTail(s: string)
    requires |s| > NAME_LIMIT && IsDevice(s[..NAME_LIMIT])
    ensures exists k: nat | k <= 4 :: DeviceThenTail(s, k)
  {
    var cut := s[..NAME_LIMIT];
    DeviceNamesAreShort(cut);
    ExtHasOneDot(cut);
    hide Ext, Upper;
    var k := |Stem(cut)|;
    assert cut[k..] == Ext(cut) && s[k + 1..NAME_LIMIT] == Ext(cut)[1..] && s[..k] == Stem(cut);
    assert DeviceThenTail(s, k);
  }

  lemma CutToDevice(s: string)
    requires |s| > NAME_LIMIT && |Ext(s)| > EXT_LIMIT
    ensures IsDevice(Cut(s)) <==> exists k: nat | k <= 4 :: DeviceThenTail(s, k)
  {
    assert Cut(s) == s[..NAME_LIMIT];
    hide Ext, Upper, Cut;
    if IsDevice(s[..NAME_LIMIT]) { DeviceHasTail(s); }
    forall k: nat | DeviceThenTail(s, k) ensures IsDevice(s[..NAME_LIMIT]) { StemOfTail(s, k); }
  }

  lemma CutIs(s: string)
    requires |s| > NAME_LIMIT && |Ext(s)| <= EXT_LIMIT
    ensures Cut(s) == s[..NAME_LIMIT - |Ext(s)|] + Ext(s)
  {
    hide Ext;
  }

  /** An extension stays what it is whatever comes before it. */
  lemma ExtStays(s: string, a: string)
    requires Ext(s) == "" ==> forall c | c in a :: c in s
    ensures Ext(a + Ext(s)) == Ext(s)
  {
    ExtHasOneDot(s);
    hide Ext;
    if Ext(s) == "" {
      ExtHasOneDot(a);
      assert a + Ext(s) == a;
    } else {
      ExtOfJoin(a, Ext(s));
    }
  }

  lemma CutKeepsExt(s: string)
    requires |s| > NAME_LIMIT && |Ext(s)| <= EXT_LIMIT
    ensures !IsDevice(Cut(s))
  {
    hide Ext, Upper, Cut;
    var a, e := s[..NAME_LIMIT - |Ext(s)|], Ext(s);
    CutIs(s);
    assert forall c | c in a :: c in s;
    ExtStays(s, a);
    assert |Stem(a + e)| == |a|;
    if IsDevice(a + e) { DeviceNamesAreShort(a + e); }
  }

  /** SafeName promises that its result cannot collide with a Windows device name. It
      keeps that promise exactly when cutting the name does not expose one. */
  lemma DeviceNamesAvoided(name: seq<Rune>)
    ensures IsDevice(SafeName(name)) <==> CutExposesDevice(Guarded(Named(Encode(Trimmed(name)))))
  {
    var s := Guarded(Named(Encode(Trimmed(name))));
    GuardedIsNoDevice(Named(Encode(Trimmed(name))));
    if |s| > NAME_LIMIT {
      if |Ext(s)| > EXT_LIMIT { CutToDevice(s); } else { CutKeepsExt(s); }
    }
  }

  // ---- A name that slips through ----

  lemma {:induction false} EncodeAscii(rs: seq<Rune>, i: nat)
    requires forall k | 0 <= k < |rs| :: rs[k] < 128
    requires i < |rs|
    ensures |Encode(rs)| == |rs| && Encode(rs)[i] == rs[i] as char
  {
    if |rs| > 1 { EncodeAscii(rs[1..], if i > 0 then i - 1 else 0); }
  }

  /** "CON.", 200 times "x", ".", 40 times "y". */
  function LongCon(): seq<Rune> {
    [67, 79, 78, 46] + seq(200, i => 120) + [46] + seq(40, i => 121)
  }

  lemma LongConIsTrimmed()
    ensures Trimmed(LongCon()) == LongCon()
  {
    var n := LongCon();
    assert forall r | r in n :: r in {67, 79, 78, 46, 120, 121};
    assert !HasSeparator(n);
    assert LastPart(n) == n;
    assert Clean(n) == n;
    assert n[0] == 67 && n[|n| - 1] == 121;
  }

  lemma LongConEncoded(s: string)
    requires s == Encode(LongCon())
    ensures |s| == 245 && s[..4] == "CON." && s[204] == '.'
    ensures forall i | 4 <= i < 245 && i != 204 :: s[i] == 'x' || s[i] == 'y'
  {
    hide LongCon, Encode;
    LongConRunes();
    AsciiLetters();
    var n := LongCon();
    AllAscii(n);
    assert s[..4] == [s[0], s[1], s[2], s[3]];
  }

  lemma LongConRunes()
    ensures var n := LongCon();
            && |n| == 245 && n[0] == 67 && n[1] == 79 && n[2] == 78 && n[3] == 46 && n[204] == 46
            && forall i | 4 <= i < 245 && i != 204 :: n[i] == 120 || n[i] == 121
  {}

  lemma AllAscii(rs: seq<Rune>)
    requires rs != [] && forall k | 0 <= k < |rs| :: rs[k] < 128
    ensures |Encode(rs)| == |rs| && forall i: nat | i < |rs| :: Encode(rs)[i] == rs[i] as char
  {
    hide Encode;
    EncodeAscii(rs, 0);
    forall i: nat | i < |rs| ensures Encode(rs)[i] == rs[i] as char { EncodeAscii(rs, i); }
  }

  lemma AsciiLetters()
    ensures 67 as char == 'C' && 79 as char == 'O' && 78 as char == 'N' && 46 as char == '.'
    ensures 120 as char == 'x' && 121 as char == 'y'
  {}

  /** SafeName turns a long name into one whose stem is CON. */
  lemma LongConBecomesDevice()
    ensures IsDevice(SafeName(LongCon()))
  {
    var s := Encode(LongCon());
    LongConIsTrimmed();
    LongConEncoded(s);
    LongStem(s);
    if IsDevice(s) { DeviceNamesAreShort(s); }
    ConThenTail(s);
    CutToDevice(s);
  }

  lemma LongStem(s: string)
    requires |s| == 245 && s[204] == '.' && forall i | 204 < i < 245 :: s[i] == 'x' || s[i] == 'y'
    ensures |Ext(s)| == 41 && |Stem(s)| == 204
  {
    var e := s[204..];
    assert s == s[..204] + e;
    assert '.' !in e[1..];
    ExtOfJoin(s[..204], e);
  }

  lemma ConThenTail(s: string)
    requires |s| == 245 && s[..4] == "CON." && forall i | 4 <= i < 204 :: s[i] == 'x' || s[i] == 'y'
    ensures DeviceThenTail(s, 3)
  {
    assert s[..3] == s[..4][..3] == "CON";
    assert Upper("CON") == "CON";
    assert s[3] == s[..4][3];
    assert '.' !in s[4..NAME_LIMIT];
  }

  // ---- Unique names ----

  /** The i-th alternative to a taken name: "stem (i).ext". */
  function Candidate(name: string, i: nat): string {
    (Stem(name) + " (") + Digits(i) + (")" + Ext(name))
  }

  lemma CandidatesDiffer(name: string, i: nat, j: nat)
    requires Candidate(name, i) == Candidate(name, j)
    ensures i == j
  {
    SameMiddle(Stem(name) + " (", Digits(i), Digits(j), ")" + Ext(name));
    DigitsInjective(i, j);
  }

  lemma SameMiddle(head: string, a: string, b: string, tail: string)
    requires head + a + tail == head + b + tail
    ensures a == b
  {
    assert |a| == |b|;
    assert a == (head + a + tail)[|head|..|head| + |a|];
    assert b == (head + b + tail)[|head|..|head| + |b|];
  }

  /** The names tried before giving up on none: the first untaken candidate from i on. */
  function FirstFree(taken: set<string>, name: string, i: nat): nat
    decreases |taken|
  {
    if Candidate(name, i) !in taken then i else FirstFree(taken - {Candidate(name, i)}, name, i + 1)
  }

  function UniqueName(taken: set<string>, name: string): string {
    if name !in taken then name else Candidate(name, FirstFree(taken, name, 2))
  }

  lemma {:induction false} FirstFreeIsFree(taken: set<string>, name: string, i: nat)
    ensures FirstFree(taken, name, i) >= i && Candidate(name, FirstFree(taken, name, i)) !in taken
    ensures forall j | i <= j < FirstFree(taken, name, i) :: Candidate(name, j) in taken
    decreases |taken|
  {
    if Candidate(name, i) in taken {
      var fewer := taken - {Candidate(name, i)};
      FirstFreeIsFree(fewer, name, i + 1);
      var k := FirstFree(fewer, name, i + 1);
      if Candidate(name, k) == Candidate(name, i) { CandidatesDiffer(name, k, i); }
      forall j | i <= j < k ensures Candidate(name, j) in taken {
        if j > i { assert Candidate(name, j) in fewer; }
      }
    }
  }

  /** In any folder an unused name is found, so nothing is ever replaced. */
  lemma UniqueNameIsFree(taken: set<string>, name: string)
    ensures UniqueName(taken, name) !in taken
  {
    FirstFreeIsFree(taken, name, 2);
  }

  /** uniquePath: try the name, then each numbered alternative in turn. */
  method UniquePath(taken: set<string>, name: string) returns (p: string)
    ensures p !in taken
    ensures p == UniqueName(taken, name)
    ensures p != name ==> exists k: nat :: k >= 2 && p == Candidate(name, k) && name in taken
                                           && forall j | 2 <= j < k :: Candidate(name, j) in taken
  {
    p := name;
    if p !in taken {
      return;
    }
    var i := 2;
    ghost var k := FirstFree(taken, name, 2);
    FirstFreeIsFree(taken, name, 2);
    p := Candidate(name, i);
    while p in taken
      invariant 2 <= i <= k && p == Candidate(name, i)
      decreases k - i
    {
      i := i + 1;
      p := Candidate(name, i);
    }
  }
}
