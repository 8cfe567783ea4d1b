/** Codes people type (internal/protocol/protocol.go, internal/server/store.go). A code is
    a sequence of runes. */
module Codes {
  import opened Basics

  /** strings.ToUpper, as far as its result can be an ASCII character. */
  function Upper(c: char): char {
    if 'a' <= c <= 'z' then ((c as int) - 32) as char
    else if c == '\U{131}' then 'I'
    else if c == '\U{17F}' then 'S'
    else c
  }

  /** The alphabet of RFC 4648 base 32. */
  predicate Letter(c: char) {
    'A' <= c <= 'Z' || '2' <= c <= '7'
  }

  predicate IsCode(s: string) {
    forall c | c in s :: Letter(c)
  }

  /** What one typed character stands for, if anything. */
  function Meant(typed: char): (s: string)
    ensures |s| <= 1 && IsCode(s)
  {
    var c := Upper(typed);
    if c == '0' then "O" else if c == '1' then "I" else if c == '8' then "B"
    else if Letter(c) then [c] else []
  }

  function Normalize(code: string): (n: string)
    ensures IsCode(n) && |n| <= |code|
  {
    if code == [] then [] else Normalize(code[..|code| - 1]) + Meant(code[|code| - 1])
  }

  method NormalizeCode(code: string) returns (out: string)
    ensures out == Normalize(code)
  {
    out := [];
    for i := 0 to |code|
      invariant out == Normalize(code[..i])
    {
      assert code[..i + 1][..i] == code[..i];
      var c := Upper(code[i]);
      if c == '0' {
        out := out + "O";
      } else if c == '1' {
        out := out + "I";
      } else if c == '8' {
        out := out + "B";
      } else if Letter(c) {
        out := out + [c];
      }
    }
    assert code[..|code|] == code;
  }

  /** n groups of four, with dashes between. */
  function Dashed(c: string, groups: nat): string
    requires groups >= 1 && |c| == 4 * groups
    decreases groups
  {
    if groups == 1 then c else Dashed(c[..|c| - 4], groups - 1) + "-" + c[|c| - 4..]
  }

  /** XXXX-XXXX-XXXX-XXXX for a complete group code; anything else unchanged. */
  function FormatCode(code: string): string {
    var n := Normalize(code);
    if |n| == 16 then Dashed(n, 4) else code
  }

  /** XXXX-XXXX-XXXX for an invite. */
  function FormatInvite(code: string): string {
    var n := Normalize(code);
    if |n| == 12 then Dashed(n, 3) else code
  }

  lemma {:induction false} NormalizeConcat(a: string, b: string)
    ensures Normalize(a + b) == Normalize(a) + Normalize(b)
    decreases |b|
  {
    if b == [] {
      assert a + b == a;
    } else {
      assert (a + b)[..|a + b| - 1] == a + b[..|b| - 1];
      NormalizeConcat(a, b[..|b| - 1]);
    }
  }

  lemma MeantPlainly()
    ensures Meant('-') == [] && forall c | Letter(c) :: Meant(c) == [c]
  {}

  lemma {:induction false} CodesAreNormal(c: string)
    requires IsCode(c)
    ensures Normalize(c) == c
  {
    MeantPlainly();
    hide Meant;
    if c != [] {
      assert c[|c| - 1] in c && Letter(c[|c| - 1]);
      CodesAreNormal(c[..|c| - 1]);
    }
  }

  lemma DashMeansNothing()
    ensures Normalize("-") == []
  {
    MeantPlainly();
    hide Meant, Letter;
    assert Normalize("-") == Normalize("-"[..0]) + Meant('-');
  }

  lemma OneMoreGroup(shown: string, rest: string, last: string)
    requires Normalize(shown) == rest && IsCode(last)
    ensures Normalize(shown + "-" + last) == rest + last
  {
    hide *;
    CodesAreNormal(last);
    NormalizeConcat(shown + "-", last);
    NormalizeConcat(shown, "-");
    DashMeansNothing();
  }

  lemma PartsAreCodes(c: string, n: nat)
    requires IsCode(c) && n <= |c|
    ensures IsCode(c[..n]) && IsCode(c[n..])
  {
    hide Letter;
  }

  lemma {:induction false} DashedNormalizes(c: string, groups: nat)
    requires groups >= 1 && |c| == 4 * groups && IsCode(c)
    ensures Normalize(Dashed(c, groups)) == c
    decreases groups
  {
    hide Normalize, IsCode;
    CodesAreNormal(c);
    if groups > 1 {
      var rest, last := c[..|c| - 4], c[|c| - 4..];
      PartsAreCodes(c, |c| - 4);
      DashedNormalizes(rest, groups - 1);
      OneMoreGroup(Dashed(rest, groups - 1), rest, last);
      assert rest + last == c;
    }
  }

  /** However a code is typed, showing it and typing what is shown means the same code:
      the displayed form is never taken for another one. */
  lemma ShownFormMeansTheSame(code: string)
    ensures Normalize(FormatCode(code)) == Normalize(code)
    ensures Normalize(FormatInvite(code)) == Normalize(code)
    ensures Normalize(Normalize(code)) == Normalize(code)
  {
    var n := Normalize(code);
    if |n| == 16 { DashedNormalizes(n, 4); }
    if |n| == 12 { DashedNormalizes(n, 3); }
    CodesAreNormal(n);
  }

  /** What each character stands for: letters for themselves in capitals, the digits 2 to 7
      for themselves, 0, 1 and 8 for the letters they look like, anything else for nothing.
      (Two characters outside ASCII have an ASCII capital.) */
  lemma WhatCharactersMean(c: char)
    ensures 'A' <= c <= 'Z' || '2' <= c <= '7' ==> Meant(c) == [c]
    ensures 'a' <= c <= 'z' ==> |Meant(c)| == 1 && Meant(c)[0] as int == c as int - ('a' as int - 'A' as int)
    ensures Meant('0') == "O" && Meant('1') == "I" && Meant('8') == "B" && Meant('\U{131}') == "I" && Meant('\U{17F}') == "S"
    ensures !('A' <= c <= 'Z') && !('a' <= c <= 'z') && !('0' <= c <= '8') && c != '\U{131}' && c != '\U{17F}' ==> Meant(c) == []
  {}

  /** An invite is shown in three groups of four and a group code in four; what is neither is
      shown as it was typed. */
  lemma ShownInGroups(code: string)
    ensures var n := Normalize(code);
            && FormatInvite(code) == (if |n| == 12 then n[..4] + "-" + n[4..8] + "-" + n[8..] else code)
            && FormatCode(code) == (if |n| == 16 then n[..4] + "-" + n[4..8] + "-" + n[8..12] + "-" + n[12..] else code)
  {
    var n := Normalize(code);
    hide Normalize, IsCode;
    if |n| == 12 { ThreeGroups(n); }
    if |n| == 16 {
      assert n[..12][..4] == n[..4] && n[..12][4..8] == n[4..8] && n[..12][8..] == n[8..12];
      ThreeGroups(n[..12]);
    }
  }

  lemma ThreeGroups(c: string)
    requires |c| == 12
    ensures Dashed(c, 3) == c[..4] + "-" + c[4..8] + "-" + c[8..]
  {
    assert Dashed(c[..8], 2) == Dashed(c[..8][..4], 1) + "-" + c[..8][4..];
    assert c[..8][..4] == c[..4] && c[..8][4..] == c[4..8];
  }

  /** Two typed characters that mean the same. */
  predicate Alike(a: char, b: char) {
    Meant(a) == Meant(b)
  }

  /** The characters of a typed code that mean something. */
  function Kept(s: string): (k: string)
    ensures forall c | c in k :: Meant(c) != []
  {
    if s == [] then []
    else Kept(s[..|s| - 1]) + (if Meant(s[|s| - 1]) == [] then [] else [s[|s| - 1]])
  }

  lemma NormalizeNext(s: string, c: char)
    ensures Normalize(s + [c]) == Normalize(s) + Meant(c)
  {
    hide Meant, IsCode;
    assert (s + [c])[..|s|] == s;
  }

  lemma {:induction false} KeptMeansTheSame(s: string)
    ensures Normalize(Kept(s)) == Normalize(s)
  {
    if s != [] {
      var rest, c := s[..|s| - 1], s[|s| - 1];
      assert s == rest + [c];
      assert Kept(s) == if Meant(c) == [] then Kept(rest) else Kept(rest) + [c];
      hide Meant, IsCode, Normalize, Kept;
      KeptMeansTheSame(rest);
      NormalizeNext(rest, c);
      NormalizeNext(Kept(rest), c);
    }
  }

  /** Of characters that all mean something, each is one letter of the normal form. */
  lemma {:induction false} LetterByLetter(k: string)
    requires forall c | c in k :: Meant(c) != []
    ensures |Normalize(k)| == |k| && forall i | 0 <= i < |k| :: [Normalize(k)[i]] == Meant(k[i])
  {
    hide Meant, Letter, IsCode;
    if k != [] {
      assert k[|k| - 1] in k;
      OneLetter(k[|k| - 1]);
      LetterByLetter(k[..|k| - 1]);
    }
  }

  lemma OneLetter(c: char)
    ensures Meant(c) != [] ==> |Meant(c)| == 1
  {}

  /** Two typed codes mean the same if and only if the characters in them that mean
      anything are as many and pairwise alike: case, digits that look like letters, and
      separators put in or left out anywhere do not matter, and nothing else is forgiven. */
  lemma TyposAreForgiven(a: string, b: string)
    ensures Normalize(a) == Normalize(b)
       <==> |Kept(a)| == |Kept(b)| && forall i | 0 <= i < |Kept(a)| :: Alike(Kept(a)[i], Kept(b)[i])
  {
    hide Meant, Letter, IsCode, Normalize, Kept;
    KeptMeansTheSame(a);
    KeptMeansTheSame(b);
    LetterByLetter(Kept(a));
    LetterByLetter(Kept(b));
    var x, y := Normalize(a), Normalize(b);
    if |Kept(a)| == |Kept(b)| && forall i | 0 <= i < |Kept(a)| :: Alike(Kept(a)[i], Kept(b)[i]) {
      forall i | 0 <= i < |x| ensures x[i] == y[i] {
        assert Alike(Kept(a)[i], Kept(b)[i]);
        assert [x[i]][0] == [y[i]][0];
      }
    }
  }
}
