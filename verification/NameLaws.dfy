/** What SafeName and uniquePath make of a name: nothing is changed that need not be
    (internal/files/files.go). */
module NameLaws {
  import opened Basics
  import opened Naming

  // ---- UTF-8, as in section 3 of RFC 3629 ----

  /** The first character of a string of bytes and how many bytes it takes. */
  function FirstRune(s: string): (int, nat)
    requires s != ""
  {
    var a := s[0] as int;
    if a < 0x80 then (a, 1)
    else if a < 0xE0 && |s| >= 2 then ((a - 0xC0) * 64 + (s[1] as int - 0x80), 2)
    else if a < 0xF0 && |s| >= 3 then ((a - 0xE0) * 4096 + (s[1] as int - 0x80) * 64 + (s[2] as int - 0x80), 3)
    else if |s| >= 4 then ((a - 0xF0) * 262144 + (s[1] as int - 0x80) * 4096 + (s[2] as int - 0x80) * 64 + (s[3] as int - 0x80), 4)
    else (a, 1)
  }

  lemma RuneRoundTrip(r: Rune, rest: string)
    ensures FirstRune(EncodeRune(r) + rest) == (r, |EncodeRune(r)|)
  {
    var s := EncodeRune(r) + rest;
    assert s[..|EncodeRune(r)|] == EncodeRune(r);
    SixBits(r);
  }

  lemma SixBits(r: int)
    requires 0 <= r
    ensures r == r / 0x40 * 64 + r % 0x40
    ensures r / 0x40 == r / 0x1000 * 64 + r / 0x40 % 0x40
    ensures r / 0x1000 == r / 0x4_0000 * 64 + r / 0x1000 % 0x40
  {
    assert r / 0x1000 == r / 0x40 / 0x40 && r / 0x4_0000 == r / 0x1000 / 0x40;
  }

  // ---- Names that stay as they are ----

  /** Not allowed in a file name on some system. */
  predicate Bad(r: Rune) {
    r < 32 || r == 127 || r in {'<' as int, '>' as int, ':' as int, '"' as int, '|' as int, '?' as int, '*' as int}
  }

  predicate Separator(r: Rune) {
    r == '/' as int || r == '\\' as int
  }

  predicate Blank(r: Rune) {
    r == '.' as int || IsSpace(r)
  }

  /** Nothing to replace and nothing to trim. */
  predicate Tidy(name: seq<Rune>) {
    && name != [] && (forall r | r in name :: !Bad(r) && !Separator(r))
    && !Blank(name[0]) && !Blank(name[|name| - 1])
  }

  lemma CleanTidy(name: seq<Rune>)
    requires forall r | r in name :: !Bad(r) && !Separator(r)
    ensures LastPart(name) == name && Clean(name) == name
  {
    assert !HasSeparator(name);
    assert forall i | 0 <= i < |name| :: name[i] in name;
  }

  lemma TidyTrimmed(name: seq<Rune>)
    requires Tidy(name)
    ensures Trimmed(name) == name
  {
    CleanTidy(name);
    hide Clean, LastPart, IsSpace;
  }

  /** The device names of Windows, in capitals. */
  predicate Reserved(s: string) {
    || s in {"CON", "PRN", "AUX", "NUL"}
    || (|s| == 4 && s[..3] in {"COM", "LPT"} && '1' <= s[3] <= '9')
  }

  lemma DevicesAreReserved(s: string)
    ensures s in DEVICES <==> Reserved(s)
  {
    if |s| == 4 { assert s == s[..3] + [s[3]]; }
    if Reserved(s) && |s| == 4 && s[..3] == "COM" { ComDevices(s); }
    if Reserved(s) && |s| == 4 && s[..3] == "LPT" { LptDevices(s); }
    if s in DEVICES { DeviceShapes(s); }
  }

  lemma ComDevices(s: string)
    requires |s| == 4 && s[..3] == "COM" && '1' <= s[3] <= '9'
    ensures s in DEVICES
  {
    assert s == "COM" + [s[3]];
    assert "COM1" == "COM" + ['1'] && "COM2" == "COM" + ['2'] && "COM3" == "COM" + ['3'] && "COM4" == "COM" + ['4'] && "COM5" == "COM" + ['5'];
    assert "COM6" == "COM" + ['6'] && "COM7" == "COM" + ['7'] && "COM8" == "COM" + ['8'] && "COM9" == "COM" + ['9'];
  }

  lemma LptDevices(s: string)
    requires |s| == 4 && s[..3] == "LPT" && '1' <= s[3] <= '9'
    ensures s in DEVICES
  {
    assert s == "LPT" + [s[3]];
    assert "LPT1" == "LPT" + ['1'] && "LPT2" == "LPT" + ['2'] && "LPT3" == "LPT" + ['3'] && "LPT4" == "LPT" + ['4'] && "LPT5" == "LPT" + ['5'];
    assert "LPT6" == "LPT" + ['6'] && "LPT7" == "LPT" + ['7'] && "LPT8" == "LPT" + ['8'] && "LPT9" == "LPT" + ['9'];
  }

  lemma DeviceShapes(s: string)
    requires s in DEVICES
    ensures Reserved(s)
  {
    if |s| == 4 {
      assert s[0] == 'C' ==> s[..3] == "COM";
      assert s[0] == 'L' ==> s[..3] == "LPT";
    }
  }

  /** The same letters, small ones standing for capitals. */
  predicate AnyCase(s: string, capitals: string) {
    |s| == |capitals| && forall i | 0 <= i < |s| :: s[i] == capitals[i] || ('A' <= capitals[i] <= 'Z' && s[i] as int == capitals[i] as int + 32)
  }

  lemma CaseDoesNotMatter(s: string, capitals: string)
    requires forall c | c in capitals :: !('a' <= c <= 'z')
    ensures Upper(s) == capitals <==> AnyCase(s, capitals)
  {
    assert forall i | 0 <= i < |capitals| :: capitals[i] in capitals;
    assert forall i | 0 <= i < |s| :: Upper(s)[i] == UpperChar(s[i]);
    if AnyCase(s, capitals) { assert forall i | 0 <= i < |s| :: Upper(s)[i] == capitals[i]; }
  }

  /** A tidy name of at most 200 bytes stays as it is, unless what comes before its last dot
      is reserved for a device: then an underscore goes in front. */
  lemma TidyNamesAreKept(name: seq<Rune>)
    requires Tidy(name) && |Encode(name)| < 200
    ensures SafeName(name) == if Reserved(Upper(Stem(Encode(name)))) then "_" + Encode(name) else Encode(name)
  {
    TidyTrimmed(name);
    DevicesAreReserved(Upper(Stem(Encode(name))));
    NotEmpty(name);
    hide Trimmed, Encode, Stem, Upper, Reserved;
  }

  lemma NotEmpty(name: seq<Rune>)
    requires name != []
    ensures Encode(name) != ""
  {}

  /** A longer one is cut to 200 bytes, and keeps what comes from its last dot on if that
      takes 20 bytes at most. */
  lemma LongNamesAreCut(name: seq<Rune>, head: string, tail: string)
    requires Tidy(name) && |Encode(name)| > 200 && Encode(name) == head + ("." + tail) && '.' !in tail && !Reserved(Upper(head))
    ensures SafeName(name) == if |tail| < 20 then head[..199 - |tail|] + ("." + tail) else Encode(name)[..200]
  {
    TidyTrimmed(name);
    var e := "." + tail;
    assert e[1..] == tail && e[0] == '.' && |e| == |tail| + 1;
    hide Trimmed, Encode, Ext, Upper, Tidy, Cut, Guarded;
    ExtOfJoin(head, e);
    StemOfJoin(head, e);
    DevicesAreReserved(Upper(head));
    NotGuarded(head + e);
    CutOfJoin(head, e);
  }

  lemma StemOfJoin(head: string, e: string)
    requires Ext(head + e) == e
    ensures Stem(head + e) == head
  {
    hide Ext;
  }

  lemma NotGuarded(s: string)
    requires Upper(Stem(s)) !in DEVICES && s != ""
    ensures Guarded(Named(s)) == s
  {
    hide Upper, Stem;
  }

  lemma CutOfJoin(head: string, e: string)
    requires Ext(head + e) == e && |head + e| > 200
    ensures Cut(head + e) == if |e| <= 20 then head[..200 - |e|] + e else (head + e)[..200]
  {
    hide Ext;
    assert (head + e)[..200] + "" == (head + e)[..200];
    if |e| <= 20 { assert (head + e)[..200 - |e|] == head[..200 - |e|]; }
  }

  lemma LongPlainNamesAreCut(name: seq<Rune>)
    requires Tidy(name) && |Encode(name)| > 200 && '.' !in Encode(name)
    ensures SafeName(name) == Encode(name)[..200]
  {
    TidyTrimmed(name);
    var s := Encode(name);
    ExtHasOneDot(s);
    hide Trimmed, Encode, Upper, Tidy, Ext;
    assert Stem(s) == s;
    if IsDevice(s) { DeviceNamesAreShort(s); }
    assert s[..200] + "" == s[..200];
  }

  // ---- What is taken off or replaced ----

  lemma {:induction false} LastOf(dir: seq<Rune>, sep: Rune, base: seq<Rune>)
    requires Separator(sep) && !HasSeparator(base)
    ensures LastPart(dir + [sep] + base) == base
    decreases |dir|
  {
    var rs := dir + [sep] + base;
    assert sep in rs;
    if dir == [] {
      assert rs[1..] == base;
    } else {
      assert rs[1..] == dir[1..] + [sep] + base;
      LastOf(dir[1..], sep, base);
    }
  }

  /** Only what follows the last separator counts, whichever kind it is. */
  lemma OnlyTheLastPartCounts(dir: seq<Rune>, sep: Rune, base: seq<Rune>)
    requires Separator(sep) && forall r | r in base :: !Separator(r)
    ensures SafeName(dir + [sep] + base) == SafeName(base)
  {
    assert !HasSeparator(base);
    LastOf(dir, sep, base);
    hide LastPart, Encode;
  }

  lemma SameSeparators(a: seq<Rune>, b: seq<Rune>)
    requires |a| == |b| && forall k | 0 <= k < |a| :: a[k] == b[k] || (!Separator(a[k]) && !Separator(b[k]))
    ensures HasSeparator(a) ==> HasSeparator(b)
  {
    if HasSeparator(a) {
      var r :| r in a && (r == SLASH || r == BACKSLASH);
      var k :| 0 <= k < |a| && a[k] == r;
      assert b[k] in b;
    }
  }

  lemma {:induction false} LastOfReplaced(name: seq<Rune>, i: nat)
    requires i < |name| && Bad(name[i])
    ensures Clean(LastPart(name[i := UNDERSCORE])) == Clean(LastPart(name))
    decreases |name|
  {
    var n' := name[i := UNDERSCORE];
    SameSeparators(name, n');
    SameSeparators(n', name);
    hide HasSeparator;
    if !HasSeparator(name) {
      assert Clean(n') == Clean(name);
    } else if i == 0 {
      assert n'[1..] == name[1..];
    } else {
      assert n'[1..] == name[1..][i - 1 := UNDERSCORE];
      LastOfReplaced(name[1..], i - 1);
    }
  }

  /** A character that is not allowed counts as an underscore, and nothing else does. */
  lemma BadCharactersBecomeUnderscores(name: seq<Rune>, i: nat)
    requires i < |name| && Bad(name[i])
    ensures SafeName(name) == SafeName(name[i := '_' as int])
  {
    LastOfReplaced(name, i);
    hide LastPart, Clean, Encode, TrimLeft, TrimRight;
  }

  lemma {:induction false} TrimLeftOff(pre: seq<Rune>, rs: seq<Rune>, drop: Rune -> bool)
    requires forall r | r in pre :: drop(r)
    ensures TrimLeft(pre + rs, drop) == TrimLeft(rs, drop)
    decreases |pre|
  {
    if pre == [] {
      assert pre + rs == rs;
    } else {
      assert pre[0] in pre && (pre + rs)[1..] == pre[1..] + rs;
      TrimLeftOff(pre[1..], rs, drop);
    }
  }

  lemma {:induction false} TrimRightOff(rs: seq<Rune>, post: seq<Rune>, drop: Rune -> bool)
    requires forall r | r in post :: drop(r)
    ensures TrimRight(rs + post, drop) == TrimRight(rs, drop)
    decreases |post|
  {
    if post == [] {
      assert rs + post == rs;
    } else {
      var n := |post| - 1;
      assert post[n] in post && (rs + post)[..|rs + post| - 1] == rs + post[..n];
      TrimRightOff(rs, post[..n], drop);
    }
  }

  lemma {:induction false} TrimRightTwice(rs: seq<Rune>, less: Rune -> bool, more: Rune -> bool)
    requires forall r: Rune :: less(r) ==> more(r)
    ensures TrimRight(TrimRight(rs, less), more) == TrimRight(rs, more)
    decreases |rs|
  {
    if rs != [] && less(rs[|rs| - 1]) { TrimRightTwice(rs[..|rs| - 1], less, more); }
  }

  lemma DressedTrims(spaces: seq<Rune>, dots: seq<Rune>, core: seq<Rune>, tail: seq<Rune>)
    requires Tidy(core) && (forall r | r in spaces :: IsSpace(r)) && (forall r | r in dots :: IsDot(r)) && (forall r | r in tail :: DotOrSpace(r))
    ensures TrimLeft(TrimRight(TrimRight(TrimLeft(spaces + (dots + core + tail), IsSpace), IsSpace), DotOrSpace), IsDot) == core
  {
    var rest := dots + core + tail;
    assert core[0] in core;
    hide TrimLeft, TrimRight;
    SpacesOff(spaces, dots, core, tail);
    hide IsSpace;
    TrimRightTwice(rest, IsSpace, DotOrSpace);
    TailOff(dots, core, tail);
    DotsOff(dots, core);
  }

  lemma SpacesOff(spaces: seq<Rune>, dots: seq<Rune>, core: seq<Rune>, tail: seq<Rune>)
    requires Tidy(core) && (forall r | r in spaces :: IsSpace(r)) && (forall r | r in dots :: IsDot(r))
    ensures TrimLeft(spaces + (dots + core + tail), IsSpace) == dots + core + tail
  {
    var rest := dots + core + tail;
    TrimLeftOff(spaces, rest, IsSpace);
    assert rest[0] == if dots == [] then core[0] else dots[0];
    assert dots != [] ==> dots[0] in dots;
  }

  lemma TailOff(dots: seq<Rune>, core: seq<Rune>, tail: seq<Rune>)
    requires Tidy(core) && forall r | r in tail :: DotOrSpace(r)
    ensures TrimRight(dots + core + tail, DotOrSpace) == dots + core
  {
    TrimRightOff(dots + core, tail, DotOrSpace);
    assert (dots + core)[|dots + core| - 1] == core[|core| - 1];
  }

  lemma DotsOff(dots: seq<Rune>, core: seq<Rune>)
    requires Tidy(core) && forall r | r in dots :: IsDot(r)
    ensures TrimLeft(dots + core, IsDot) == core
  {
    TrimLeftOff(dots, core, IsDot);
  }

  /** Around a tidy name, spaces and then dots in front and any of both behind are taken
      off. */
  lemma DressingComesOff(spaces: seq<Rune>, dots: seq<Rune>, core: seq<Rune>, tail: seq<Rune>)
    requires Tidy(core) && (forall r | r in spaces :: IsSpace(r) && r >= 32) && (forall r | r in dots :: r == '.' as int)
    requires forall r | r in tail :: r == '.' as int || (IsSpace(r) && r >= 32)
    ensures SafeName(spaces + (dots + core + tail)) == SafeName(core)
  {
    var name := spaces + (dots + core + tail);
    forall r | r in name ensures !Bad(r) && !Separator(r) {
      assert r in spaces || r in dots || r in core || r in tail;
    }
    CleanTidy(name);
    DressedTrims(spaces, dots, core, tail);
    TidyTrimmed(core);
    hide LastPart, Clean, Encode, TrimLeft, TrimRight, IsSpace;
  }

  /** With nothing but dots and spaces there is no name left. */
  lemma BlankIsFile(name: seq<Rune>)
    requires forall r | r in name :: r == '.' as int || (IsSpace(r) && r >= 32)
    ensures SafeName(name) == "file"
  {
    CleanTidy(name);
    BlankTrims(name);
    FileIsKept();
    hide LastPart, Clean, TrimLeft, TrimRight, Cut, Guarded;
    assert Trimmed(name) == [];
  }

  lemma BlankTrims(name: seq<Rune>)
    requires forall r | r in name :: DotOrSpace(r)
    ensures TrimLeft(TrimRight(TrimRight(TrimLeft(name, IsSpace), IsSpace), DotOrSpace), IsDot) == []
  {
    var a := TrimLeft(name, IsSpace);
    TrimRightTwice(a, IsSpace, DotOrSpace);
    assert a == [] + a && forall r | r in a :: DotOrSpace(r);
    TrimRightOff([], a, DotOrSpace);
  }

  lemma FileIsKept()
    ensures Cut(Guarded("file")) == "file"
  {
    ExtHasOneDot("file");
    hide Ext;
    assert Stem("file") == "file";
    var u := Upper("file");
    assert u[0] == 'F' && u[..3][0] == 'F';
    if u in DEVICES { DeviceShapes(u); }
  }

  // ---- Numbered names ----

  /** A number goes in brackets before the extension. */
  lemma NumbersGoBeforeTheExtension(head: string, tail: string, i: nat)
    requires '.' !in tail
    ensures Candidate(head + ("." + tail), i) == (head + " (") + Digits(i) + (")" + ("." + tail))
    ensures '.' !in head ==> Candidate(head, i) == (head + " (") + Digits(i) + ")"
  {
    var e := "." + tail;
    assert e[1..] == tail && e[0] == '.';
    ExtOfJoin(head, e);
    ExtHasOneDot(head);
    hide Ext, Digits;
    StemOfJoin(head, e);
    assert ")" + "" == ")";
  }
}
