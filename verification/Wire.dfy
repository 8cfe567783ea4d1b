/** Messages, the order on clips, clip contents and end-to-end sealing
    (internal/protocol/protocol.go, internal/clipboard/clipboard.go). */
module Wire {
  import opened Basics

  const TYPE_CLIP := "clip"
  const TYPE_FILE_START := "file_start"
  const TYPE_FILE_CHUNK := "file_chunk"
  const TYPE_FILE_END := "file_end"
  const TYPE_FILE_ACK := "file_ack"

  const CLIP_TEXT := "text"
  const CLIP_IMAGE := "image"

  const MAX_TEXT := 0x10_0000
  const MAX_IMAGE := 25 * 0x10_0000

  type Key = nat

  /** Ideal authenticated encryption: a body is what some key sealed over some
      associated data, or bytes nobody sealed. */
  datatype Body = NoBody | Sealed(key: Key, aad: string, plain: Bytes) | Junk(raw: Bytes)

  datatype Message = Message(mtype: string, id: string, origin: string, originName: string, time: int,
                             ctype: string, mime: string, to: string, seqNo: int, error: string, body: Body)

  // ---- The order on clips ----

  /** `a` beats `b`: later copy time, ties broken by id. */
  predicate Beats(a: Message, b: Message) {
    if a.time != b.time then a.time > b.time else Before(b.id, a.id)
  }

  /** Message.Newer: should clip `m` replace `cur`? No current clip always loses. */
  predicate Newer(m: Message, cur: Option<Message>) {
    cur.None? || Beats(m, cur.value)
  }

  /** Message.newerThan of the Kotlin implementation. */
  predicate NewerThanKotlin(m: Message, cur: Option<Message>) {
    cur.None? || m.time > cur.value.time || (m.time == cur.value.time && Before(cur.value.id, m.id))
  }

  lemma BothImplementationsAgree(m: Message, cur: Option<Message>)
    ensures Newer(m, cur) <==> NewerThanKotlin(m, cur)
  {}

  lemma BeatsTransitive(a: Message, b: Message, c: Message)
    requires Beats(a, b) && Beats(b, c)
    ensures Beats(a, c)
  {
    if a.time == b.time == c.time { BeforeTransitive(c.id, b.id, a.id); }
  }

  lemma BeatsIrreflexive(a: Message)
    ensures !Beats(a, a)
  {
    BeforeIrreflexive(a.id);
  }

  lemma BeatsTotal(a: Message, b: Message)
    ensures Beats(a, b) || Beats(b, a) || (a.time == b.time && a.id == b.id)
  {
    BeforeTotal(a.id, b.id);
  }

  /** `cur` is at least as new as `m`: `m` would not replace it. */
  predicate Covers(cur: Option<Message>, m: Message) {
    !Newer(m, cur)
  }

  lemma CoversSelf(m: Message)
    ensures Covers(Some(m), m)
  {
    BeatsIrreflexive(m);
  }

  /** What a newer clip replaces, it covers along with everything that covered. */
  lemma CoversTransitive(a: Option<Message>, b: Message, m: Message)
    requires Covers(a, b) && Covers(Some(b), m)
    ensures Covers(a, m)
  {
    if Newer(m, a) {
      BeatsTotal(b, m);
      if Beats(b, m) { BeatsTransitive(b, m, a.value); }
      else { BeatsTotal(a.value, b); }
    }
  }

  lemma NewerCovers(m: Message, cur: Message)
    requires Beats(m, cur)
    ensures Covers(Some(m), cur)
  {
    if Beats(cur, m) { BeatsTransitive(m, cur, m); BeatsIrreflexive(m); }
  }

  /** Two clips that cover each other are the same one, up to (time, id). */
  lemma CoversAntisymmetric(a: Message, b: Message)
    requires Covers(Some(a), b) && Covers(Some(b), a)
    ensures a.time == b.time && a.id == b.id
  {
    BeatsTotal(a, b);
  }

  // ---- Clip contents ----

  datatype Content = Content(ctype: string, text: Bytes, data: Bytes, mime: string, sensitive: bool) {
    /** Content.Bytes: the payload that gets synced. */
    function Payload(): Bytes {
      if ctype == CLIP_TEXT then text else data
    }

    /** Content.Hash, idealised as injective. */
    function Digest(): Hash {
      HashOf(ctype, Payload())
    }

    predicate Valid() {
      if ctype == CLIP_TEXT then text != [] && |text| <= MAX_TEXT
      else if ctype == CLIP_IMAGE then data != [] && |data| <= MAX_IMAGE
      else false
    }
  }

  datatype Hash = HashOf(kind: string, data: Bytes)

  /** contentFrom: rebuild the content a decrypted clip carries. */
  function ContentFrom(m: Message, plain: Bytes): Option<Content> {
    if m.ctype == CLIP_TEXT then
      var c := Content(m.ctype, plain, [], m.mime, false);
      if c.Valid() then Some(c) else None
    else if m.ctype == CLIP_IMAGE then
      var c := Content(m.ctype, [], plain, m.mime, false);
      if c.Valid() then Some(c) else None
    else None
  }

  // ---- Sealing ----

  /** Five header fields separated by bars. */
  function Join5(a: string, b: string, c: string, d: string, e: string): string {
    a + "|" + (b + "|" + (c + "|" + (d + "|" + e)))
  }

  function ClipAad(m: Message): string {
    "voidbridge-clip-v2|" + Join5(m.id, m.origin, FormatInt(m.time), m.ctype, m.mime)
  }

  function FileAad(m: Message): string {
    "voidbridge-file-v2|" + Join5(m.mtype, m.id, m.origin, m.to, FormatInt(m.seqNo))
  }

  function SealClip(key: Key, m: Message, plain: Bytes): Message {
    m.(body := Sealed(key, ClipAad(m), plain))
  }

  function SealFile(key: Key, m: Message, plain: Bytes): Message {
    m.(body := Sealed(key, FileAad(m), plain))
  }

  function OpenClip(key: Key, m: Message): Option<Bytes> {
    if m.body.Sealed? && m.body.key == key && m.body.aad == ClipAad(m) then Some(m.body.plain) else None
  }

  function OpenFile(key: Key, m: Message): Option<Bytes> {
    if m.body.Sealed? && m.body.key == key && m.body.aad == FileAad(m) then Some(m.body.plain) else None
  }

  /** A clip made by LocalCopy from valid content under the group key. */
  ghost predicate Genuine(key: Key, m: Message) {
    m.mtype == TYPE_CLIP && exists c: Content :: SealedFrom(key, m, c)
  }

  ghost predicate SealedFrom(key: Key, m: Message, c: Content) {
    c.Valid() && m.ctype == c.ctype && m.mime == c.mime && m == SealClip(key, m, c.Payload())
  }

  /** Every member of the group can open a genuine clip and gets back the very
      content that was copied: same bytes, same digest. */
  lemma GenuineClipsOpen(key: Key, m: Message, c: Content)
    requires SealedFrom(key, m, c)
    ensures OpenClip(key, m) == Some(c.Payload())
    ensures ContentFrom(m, c.Payload()).Some?
    ensures ContentFrom(m, c.Payload()).value.Digest() == c.Digest()
  {}

  /** Two contents have one digest exactly when they are the same bytes of the same kind. */
  lemma DigestIsContent(a: Content, b: Content)
    ensures a.Digest() == b.Digest() <==> a.ctype == b.ctype && a.Payload() == b.Payload()
  {}

  /** IsFile. */
  predicate IsFile(m: Message) {
    m.mtype in {TYPE_FILE_START, TYPE_FILE_CHUNK, TYPE_FILE_END, TYPE_FILE_ACK}
  }

  // ---- The associated data binds the header ----

  /** A field that cannot blur into its neighbours. */
  predicate Plain(s: string) {
    '|' !in s
  }

  /** Number of separators in a string. */
  function Bars(s: string): nat {
    if s == [] then 0 else (if s[0] == '|' then 1 else 0) + Bars(s[1..])
  }

  lemma {:induction false} BarsConcat(a: string, b: string)
    ensures Bars(a + b) == Bars(a) + Bars(b)
  {
    if a == [] {
      assert a + b == b;
    } else {
      BarsConcat(a[1..], b);
      assert (a + b)[1..] == a[1..] + b;
    }
  }

  lemma {:induction false} NoBarsIsPlain(s: string)
    ensures Bars(s) == 0 <==> Plain(s)
  {
    if s != [] {
      NoBarsIsPlain(s[1..]);
      assert s == [s[0]] + s[1..];
    }
  }

  /** The text up to the first separator is determined by the whole. */
  lemma FirstField(a: string, b: string, x: string, y: string)
    requires Plain(a) && Plain(x)
    requires a + "|" + b == x + "|" + y
    ensures a == x && b == y
  {
    var s, t := a + "|" + b, x + "|" + y;
    assert forall i | 0 <= i < |x| :: t[i] == x[i] && x[i] in x;
    assert forall i | 0 <= i < |a| :: s[i] == a[i] && a[i] in a;
    assert s[|a|] == '|' && t[|x|] == '|';
    assert s[..|a|] == a && t[..|x|] == x;
    assert s[|a| + 1..] == b && t[|x| + 1..] == y;
  }

  lemma BarsOfJoin(a: string, b: string, c: string, d: string, e: string)
    ensures Bars(Join5(a, b, c, d, e)) == Bars(a) + Bars(b) + Bars(c) + Bars(d) + Bars(e) + 4
  {
    var de := d + "|" + e;
    var cde := c + "|" + de;
    var bcde := b + "|" + cde;
    assert Bars("|") == 1;
    BarsConcat(d + "|", e); BarsConcat(d, "|");
    BarsConcat(c + "|", de); BarsConcat(c, "|");
    BarsConcat(b + "|", cde); BarsConcat(b, "|");
    BarsConcat(a + "|", bcde); BarsConcat(a, "|");
  }

  /** Five fields of which one list is free of separators: equal texts, equal
      fields. Only one side has to be well behaved, so the other may be forged. */
  lemma JoinInjective(a: string, b: string, c: string, d: string, e: string,
                      a': string, b': string, c': string, d': string, e': string)
    requires Plain(a) && Plain(b) && Plain(c) && Plain(d) && Plain(e)
    requires Join5(a, b, c, d, e) == Join5(a', b', c', d', e')
    ensures a == a' && b == b' && c == c' && d == d' && e == e'
  {
    BarsOfJoin(a, b, c, d, e);
    BarsOfJoin(a', b', c', d', e');
    NoBarsIsPlain(a); NoBarsIsPlain(b); NoBarsIsPlain(c); NoBarsIsPlain(d); NoBarsIsPlain(e);
    NoBarsIsPlain(a'); NoBarsIsPlain(b'); NoBarsIsPlain(c'); NoBarsIsPlain(d'); NoBarsIsPlain(e');
    FirstField(a, b + "|" + (c + "|" + (d + "|" + e)), a', b' + "|" + (c' + "|" + (d' + "|" + e')));
    FirstField(b, c + "|" + (d + "|" + e), b', c' + "|" + (d' + "|" + e'));
    FirstField(c, d + "|" + e, c', d' + "|" + e');
    FirstField(d, e, d', e');
  }

  /** Sealed file messages cannot be renamed, renumbered, redirected or turned
      into another kind of message: a header under which a sealed body opens is
      the header it was sealed with, in every field the associated data covers. */
  lemma FileAadBindsHeader(m: Message, forged: Message)
    requires Plain(m.mtype) && Plain(m.id) && Plain(m.origin) && Plain(m.to)
    requires FileAad(m) == FileAad(forged)
    ensures m.mtype == forged.mtype && m.id == forged.id && m.origin == forged.origin
    ensures m.to == forged.to && m.seqNo == forged.seqNo
  {
    var p := "voidbridge-file-v2|";
    var s := FormatInt(m.seqNo);
    var s' := FormatInt(forged.seqNo);
    assert Join5(m.mtype, m.id, m.origin, m.to, s) == FileAad(m)[|p|..];
    assert Join5(forged.mtype, forged.id, forged.origin, forged.to, s') == FileAad(forged)[|p|..];
    JoinInjective(m.mtype, m.id, m.origin, m.to, s, forged.mtype, forged.id, forged.origin, forged.to, s');
    FormatIntInjective(m.seqNo, forged.seqNo);
  }

  /** The same for clips: id, origin, time, kind and media type are all bound. */
  lemma ClipAadBindsHeader(m: Message, forged: Message)
    requires Plain(m.id) && Plain(m.origin) && Plain(m.ctype) && Plain(m.mime)
    requires ClipAad(m) == ClipAad(forged)
    ensures m.id == forged.id && m.origin == forged.origin && m.time == forged.time
    ensures m.ctype == forged.ctype && m.mime == forged.mime
  {
    var p := "voidbridge-clip-v2|";
    var t := FormatInt(m.time);
    var t' := FormatInt(forged.time);
    assert Join5(m.id, m.origin, t, m.ctype, m.mime) == ClipAad(m)[|p|..];
    assert Join5(forged.id, forged.origin, t', forged.ctype, forged.mime) == ClipAad(forged)[|p|..];
    JoinInjective(m.id, m.origin, t, m.ctype, m.mime, forged.id, forged.origin, t', forged.ctype, forged.mime);
    FormatIntInjective(m.time, forged.time);
  }

  /** Whether two messages agree in all that their associated data covers. */
  predicate SameFileHeader(a: Message, b: Message) {
    a.mtype == b.mtype && a.id == b.id && a.origin == b.origin && a.to == b.to && a.seqNo == b.seqNo
  }

  predicate SameClipHeader(a: Message, b: Message) {
    a.id == b.id && a.origin == b.origin && a.time == b.time && a.ctype == b.ctype && a.mime == b.mime
  }

  lemma BarSplits(s: string) returns (a: string, b: string)
    requires !Plain(s)
    ensures s == a + "|" + b
  {
    var i :| 0 <= i < |s| && s[i] == '|';
    a, b := s[..i], s[i + 1..];
  }

  /** A separator in one of two neighbouring fields can change places with the one
      between them. */
  lemma NeighboursBlur(x: string, y: string) returns (x': string, y': string)
    requires !Plain(x) || !Plain(y)
    ensures x' + "|" + y' == x + "|" + y && x' != x
  {
    if !Plain(x) {
      var a, b := BarSplits(x);
      x', y' := a, b + "|" + y;
      assert |x'| < |x|;
      assert a + "|" + (b + "|" + y) == (a + "|" + b) + "|" + y;
    } else {
      var a, b := BarSplits(y);
      x', y' := x + "|" + a, b;
      assert |x'| > |x|;
      assert (x + "|" + a) + "|" + b == x + "|" + (a + "|" + b);
    }
  }

  lemma FileTypesArePlain(m: Message)
    requires IsFile(m)
    ensures Plain(m.mtype)
  {}

  /** The associated data of a file message fits another header of its kind if and only if
      one of the three names in it contains a separator. */
  lemma FileHeaderIsForgeable(m: Message)
    requires IsFile(m)
    ensures (exists f: Message :: f.mtype == m.mtype && FileAad(f) == FileAad(m) && !SameFileHeader(f, m))
       <==> !(Plain(m.id) && Plain(m.origin) && Plain(m.to))
  {
    FileTypesArePlain(m);
    hide FormatInt;
    if Plain(m.id) && Plain(m.origin) && Plain(m.to) {
      forall f: Message | FileAad(f) == FileAad(m) ensures SameFileHeader(f, m) { FileAadBindsHeader(m, f); }
    } else if !Plain(m.id) || !Plain(m.origin) {
      var x, y := NeighboursBlur(m.id, m.origin);
      var f := m.(id := x, origin := y);
      Rejoin(m.id, m.origin, x, y, m.to + "|" + FormatInt(m.seqNo));
      assert FileAad(f) == FileAad(m) && !SameFileHeader(f, m);
    } else {
      var x, y := NeighboursBlur(m.origin, m.to);
      var f := m.(origin := x, to := y);
      Rejoin(m.origin, m.to, x, y, FormatInt(m.seqNo));
      assert FileAad(f) == FileAad(m) && !SameFileHeader(f, m);
    }
  }

  lemma Rejoin(x: string, y: string, x': string, y': string, rest: string)
    requires x' + "|" + y' == x + "|" + y
    ensures x' + "|" + (y' + "|" + rest) == x + "|" + (y + "|" + rest)
  {
    assert x' + "|" + (y' + "|" + rest) == (x' + "|" + y') + ("|" + rest);
    assert x + "|" + (y + "|" + rest) == (x + "|" + y) + ("|" + rest);
  }

  /** The same for clips: id, origin, kind and media type. */
  lemma ClipHeaderIsForgeable(m: Message)
    ensures (exists f: Message :: ClipAad(f) == ClipAad(m) && !SameClipHeader(f, m))
       <==> !(Plain(m.id) && Plain(m.origin) && Plain(m.ctype) && Plain(m.mime))
  {
    hide FormatInt;
    if Plain(m.id) && Plain(m.origin) && Plain(m.ctype) && Plain(m.mime) {
      forall f: Message | ClipAad(f) == ClipAad(m) ensures SameClipHeader(f, m) { ClipAadBindsHeader(m, f); }
    } else if !Plain(m.id) || !Plain(m.origin) {
      var x, y := NeighboursBlur(m.id, m.origin);
      var f := m.(id := x, origin := y);
      Rejoin(m.id, m.origin, x, y, FormatInt(m.time) + "|" + (m.ctype + "|" + m.mime));
      assert ClipAad(f) == ClipAad(m) && !SameClipHeader(f, m);
    } else {
      var x, y := NeighboursBlur(m.ctype, m.mime);
      var f := m.(ctype := x, mime := y);
      assert ClipAad(f) == ClipAad(m) && !SameClipHeader(f, m);
    }
  }

  /** A clip can never pass for a file message, nor the other way round, whatever their
      fields hold. */
  lemma KindsNeverMix(key: Key, clip: Message, file: Message)
    ensures ClipAad(clip) != FileAad(file)
    ensures clip.body.Sealed? && file.body == clip.body ==> OpenClip(key, clip).None? || OpenFile(key, file).None?
  {
    var a, b := ClipAad(clip), FileAad(file);
    assert a[11] == 'c' && b[11] == 'f';
  }
}
