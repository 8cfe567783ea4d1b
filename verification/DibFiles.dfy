/** Bitmaps as other programs write them: every size of header, every depth, rows padded to
    whole words, stored bottom-up or top-down (internal/clipboard/image.go, DIBToImage). The
    layout is that of section 2.2.2.9 (DeviceIndependentBitmap Object) of [MS-WMF]. */
module DibFiles {
  import opened Basics
  import opened Endian
  import opened Bits
  import opened Dib
  import opened DibLaws

  // ---- How a bitmap is laid out ----

  /** One part after another. */
  function Flat(parts: seq<Bytes>): Bytes {
    if parts == [] then [] else Flat(parts[..|parts| - 1]) + parts[|parts| - 1]
  }

  /** Zero bytes are appended until the length is a multiple of four. */
  function ZeroPadded(row: Bytes): (r: Bytes)
    ensures |r| % 4 == 0 && |row| <= |r| < |row| + 4 && r[..|row|] == row
    decreases (4 - |row| % 4) % 4
  {
    if |row| % 4 == 0 then row else ZeroPadded(row + [0])
  }

  /** What a header says. `more` is whatever a longer header holds after the first 40 bytes. */
  datatype Spec = Spec(w: nat, h: nat, topDown: bool, bpp: nat, fields: bool, used: nat, more: Bytes,
                       r: nat, g: nat, b: nat, a: nat, palette: seq<Pixel>)

  function FirstForty(s: Spec): (b: Bytes)
    ensures |b| == 40
  {
    Put32(40 + |s.more|) + Put32(s.w) + Put32(Unsigned32(if s.topDown then -(s.h as int) else s.h)) + Put16(1) + Put16(s.bpp)
    + Put32(if s.fields then 3 else 0) + Put32(0) + Put32(0) + Put32(0) + Put32(s.used) + Put32(0)
  }

  /** The colour masks, in a header that has room for them or else behind it. */
  function Words(s: Spec): Bytes {
    Put32(s.r) + Put32(s.g) + Put32(s.b)
  }

  function Behind(s: Spec): Bytes {
    if s.fields && |s.more| < 12 then Words(s) else []
  }

  function Colour(c: Pixel): Bytes {
    [c.b, c.g, c.r, 0]
  }

  function Colours(palette: seq<Pixel>): Bytes {
    Flat(seq(|palette|, i requires 0 <= i < |palette| => Colour(palette[i])))
  }

  /** The rows of the picture, first to last, in the order they are stored. */
  function Stored(rows: seq<Bytes>, topDown: bool): (o: seq<Bytes>)
    ensures |o| == |rows|
  {
    seq(|rows|, i requires 0 <= i < |rows| => ZeroPadded(if topDown then rows[i] else rows[|rows| - 1 - i]))
  }

  function Front(s: Spec): Bytes {
    FirstForty(s) + s.more + Behind(s) + Colours(s.palette)
  }

  function File(s: Spec, rows: seq<Bytes>): Bytes {
    Front(s) + Flat(Stored(rows, s.topDown))
  }

  /** A header that means what it says. */
  predicate Proper(s: Spec) {
    && 1 <= s.w <= 32768 && 1 <= s.h <= 32768 && s.bpp in {1, 4, 8, 16, 24, 32}
    && 40 + |s.more| < TWO_32 && s.used < TWO_32 && s.r < TWO_32 && s.g < TWO_32 && s.b < TWO_32 && s.a < TWO_32
    && (s.fields && |s.more| >= 12 ==> s.more[..12] == Words(s))
    && (if s.fields && |s.more| >= 16 then s.more[12..16] == Put32(s.a) else s.a == 0)
    && |s.palette| == (if s.bpp > 8 then 0 else if s.used == 0 then Pow2(s.bpp) else s.used)
    && forall i | 0 <= i < |s.palette| :: s.palette[i].a == 255
  }

  /** One row of bytes for each row of pixels, with as many bytes as its bits need. */
  predicate Filled(s: Spec, rows: seq<Bytes>) {
    |rows| == s.h && forall y | 0 <= y < s.h :: |rows[y]| == (s.w * s.bpp + 7) / 8
  }

  /** The number stored in two or four bytes. */
  function Word(t: Bytes, i: nat, n: nat): nat
    requires i + n <= |t|
    decreases n
  {
    if n == 0 then 0 else t[i] + 256 * Word(t, i + 1, n - 1)
  }

  lemma BytesNeeded(w: nat, bpp: nat, x: nat)
    requires x < w && bpp in {1, 4, 8, 16, 24, 32}
    ensures x * bpp + bpp <= 8 * ((w * bpp + 7) / 8)
    ensures bpp >= 16 ==> (x + 1) * (bpp / 8) <= (w * bpp + 7) / 8
  {
    MulMonotone(x + 1, w, bpp);
    assert (x + 1) * bpp == x * bpp + bpp;
  }

  /** What pixel x of a row of bytes looks like. */
  function Shown(s: Spec, t: Bytes, x: nat): Pixel
    requires Proper(s) && |t| == (s.w * s.bpp + 7) / 8 && x < s.w
  {
    BytesNeeded(s.w, s.bpp, x);
    if s.bpp == 24 then Pixel(t[3 * x + 2], t[3 * x + 1], t[3 * x], 255)
    else if s.bpp == 32 && !s.fields then Pixel(t[4 * x + 2], t[4 * x + 1], t[4 * x], t[4 * x + 3])
    else if s.bpp == 32 then
      var v := Word(t, 4 * x, 4);
      Pixel(Channel(v, s.r), Channel(v, s.g), Channel(v, s.b), if s.a == 0 then 255 else Channel(v, s.a))
    else if s.bpp == 16 && !s.fields then
      var v := Word(t, 2 * x, 2);
      Pixel(v / 1024 % 32 * 255 / 31, v / 32 % 32 * 255 / 31, v % 32 * 255 / 31, 255)
    else if s.bpp == 16 then
      var v := Word(t, 2 * x, 2);
      Pixel(Channel(v, s.r), Channel(v, s.g), Channel(v, s.b), 255)
    else
      var n := Spelled(t, x * s.bpp, s.bpp);
      if n < |s.palette| then s.palette[n] else Pixel(0, 0, 0, 0)
  }

  // ---- Bytes where they belong ----

  lemma {:induction false} FlatAt(parts: seq<Bytes>, k: nat, i: nat)
    requires forall j | 0 <= j < |parts| :: |parts[j]| == k
    ensures |Flat(parts)| == StartOf(|parts|, k)
    ensures i < |parts| ==> StartOf(i, k) + k <= |Flat(parts)| && Flat(parts)[StartOf(i, k)..StartOf(i, k) + k] == parts[i]
    decreases |parts|
  {
    if parts != [] {
      var n := |parts| - 1;
      FlatAt(parts[..n], k, i);
      StartGrows(n, k, |parts|);
      StartGrows(0, k, |parts|);
      hide StartOf;
      if i < n { assert Flat(parts)[StartOf(i, k)..StartOf(i, k) + k] == Flat(parts[..n])[StartOf(i, k)..StartOf(i, k) + k]; }
    }
  }

  lemma RowLength(n: nat, len: nat)
    requires len % 4 == 0 && (n + 7) / 8 <= len < (n + 7) / 8 + 4
    ensures len == (n + 31) / 32 * 4
  {}

  lemma StoredLengths(s: Spec, rows: seq<Bytes>, l: Layout)
    requires Filled(s, rows) && l.w == s.w && l.bpp == s.bpp
    ensures forall i | 0 <= i < s.h :: |Stored(rows, s.topDown)[i]| == Stride(l)
  {
    var o := Stored(rows, s.topDown);
    forall i | 0 <= i < s.h ensures |o[i]| == Stride(l) { RowLength(s.w * s.bpp, |o[i]|); }
  }

  lemma HeadSlices(s: Spec)
    ensures var b := FirstForty(s);
            && b[0..4] == Put32(40 + |s.more|) && b[4..8] == Put32(s.w)
            && b[8..12] == Put32(Unsigned32(if s.topDown then -(s.h as int) else s.h))
            && b[14..16] == Put16(s.bpp) && b[16..20] == Put32(if s.fields then 3 else 0) && b[32..36] == Put32(s.used)
  {
    hide Put32, Put16;
  }

  lemma ReadBack(b: Bytes, i: nat, n: nat)
    requires i + 4 <= |b| && b[i..i + 4] == Put32(n)
    ensures LE32(b, i) == n % TWO_32
  {
    WordOf(b, i);
    LittleEndianRoundTrip(n);
    hide LE32, LE16, Put32;
  }

  lemma ReadBackShort(b: Bytes, i: nat, n: nat)
    requires i + 4 <= |b| && b[i..i + 2] == Put16(n)
    ensures LE16(b, i) == n % 0x1_0000
  {
    WordOf(b, i);
    LittleEndianRoundTrip(n);
    hide LE16, Put16;
  }

  /** A stretch of the first part of a longer string. */
  lemma SliceOfFront(f: Bytes, b: Bytes, i: nat, j: nat)
    requires f <= b && i <= j <= |f|
    ensures b[i..j] == f[i..j]
  {}

  lemma FileFields(s: Spec, b: Bytes)
    requires Proper(s) && FirstForty(s) <= b
    ensures LE32(b, 0) == 40 + |s.more| && LE32(b, 4) == s.w && Signed32(LE32(b, 8)) == (if s.topDown then -(s.h as int) else s.h)
    ensures LE16(b, 14) == s.bpp && LE32(b, 16) == (if s.fields then 3 else 0) && LE32(b, 32) == s.used
  {
    HeadSlices(s);
    var f, h := FirstForty(s), if s.topDown then -(s.h as int) else s.h;
    hide FirstForty, Put32, Put16, LE32, LE16, Pow2, Words;
    SliceOfFront(f, b, 0, 4); ReadBack(b, 0, 40 + |s.more|);
    SliceOfFront(f, b, 4, 8); ReadBack(b, 4, s.w);
    SliceOfFront(f, b, 8, 12); ReadBack(b, 8, Unsigned32(h));
    SliceOfFront(f, b, 14, 16); ReadBackShort(b, 14, s.bpp);
    SliceOfFront(f, b, 16, 20); ReadBack(b, 16, if s.fields then 3 else 0);
    SliceOfFront(f, b, 32, 36); ReadBack(b, 32, s.used);
  }

  /** The four bytes at a place hold a number. */
  predicate HasWord(b: Bytes, i: nat, n: nat) {
    i + 4 <= |b| && b[i..i + 4] == Put32(n)
  }

  lemma WordsAt(b: Bytes, at: nat, s: Spec)
    requires at + 12 <= |b| && b[at..at + 12] == Words(s)
    ensures HasWord(b, at, s.r) && HasWord(b, at + 4, s.g) && HasWord(b, at + 8, s.b)
  {
    var t := b[at..at + 12];
    assert t[0..4] == Put32(s.r) && t[4..8] == Put32(s.g) && t[8..12] == Put32(s.b);
    hide Put32;
    SliceOfSlice(b, at, 12, 0);
    SliceOfSlice(b, at, 12, 4);
    SliceOfSlice(b, at, 12, 8);
  }

  lemma HeldWord(b: Bytes, i: nat, n: nat)
    requires HasWord(b, i, n) && n < TWO_32
    ensures i + 4 <= |b| && LE32(b, i) == n
  {
    hide Put32, LE32;
    ReadBack(b, i, n);
  }

  lemma WordReads(b: Bytes, at: nat, s: Spec)
    requires at + 12 <= |b| && b[at..at + 12] == Words(s) && s.r < TWO_32 && s.g < TWO_32 && s.b < TWO_32
    ensures LE32(b, at) == s.r && LE32(b, at + 4) == s.g && LE32(b, at + 8) == s.b
  {
    WordsAt(b, at, s);
    hide *;
    HeldWord(b, at, s.r);
    HeldWord(b, at + 4, s.g);
    HeldWord(b, at + 8, s.b);
  }

  /** The masks the header gives, or those of a plain bitmap. */
  function MaskOf(s: Spec): (nat, nat, nat, nat) {
    if s.fields then (s.r, s.g, s.b, s.a) else (0xff_0000, 0xff00, 0xff, 0)
  }

  lemma FileMasks(s: Spec, b: Bytes)
    requires Proper(s) && FirstForty(s) + s.more + Behind(s) <= b
    ensures var (r, g, bl, a) := MaskOf(s);
            Masks(b, 40 + |s.more|, if s.fields then 3 else 0) == Ok((r, g, bl, a, 40 + |s.more| + |Behind(s)|))
  {
    hide FirstForty, Words, Put32, LE32, Pow2;
    var f, n := FirstForty(s) + s.more + Behind(s), 40 + |s.more|;
    if s.fields && |s.more| < 12 {
      assert b[n..n + 12] == f[n..n + 12] == Words(s) by { WordsAreTwelve(s); }
      WordReads(b, n, s);
    } else if s.fields {
      assert b[40..52] == f[40..52] == s.more[..12];
      WordReads(b, 40, s);
      if |s.more| >= 16 {
        assert b[52..56] == f[52..56] == s.more[12..16];
        ReadBack(b, 52, s.a);
      }
    }
  }

  lemma WordsAreTwelve(s: Spec)
    ensures |Words(s)| == 12
  {}

  lemma PaletteReads(b: Bytes, at: nat, palette: seq<Pixel>)
    requires at + 4 * |palette| <= |b| && b[at..at + 4 * |palette|] == Colours(palette)
    requires forall i | 0 <= i < |palette| :: palette[i].a == 255
    ensures PaletteAt(b, at, |palette|) == palette
  {
    var parts := seq(|palette|, i requires 0 <= i < |palette| => Colour(palette[i]));
    forall i | 0 <= i < |palette| ensures PaletteAt(b, at, |palette|)[i] == palette[i] {
      FlatAt(parts, 4, i);
      assert StartOf(i, 4) == 4 * i;
      hide Flat, StartOf, Colour;
      assert b[at..at + 4 * |palette|][4 * i..4 * i + 4] == Colour(palette[i]);
      ColourReads(b, at + 4 * i, palette[i], b[at..at + 4 * |palette|], 4 * i);
    }
  }

  lemma ColourReads(b: Bytes, at: nat, c: Pixel, t: Bytes, i: nat)
    requires at + 4 <= |b| && i + 4 <= |t| && at >= i && at - i + |t| <= |b| && t == b[at - i..at - i + |t|] && t[i..i + 4] == Colour(c) && c.a == 255
    ensures Pixel(b[at + 2], b[at + 1], b[at], 255) == c
  {
    var q := t[i..i + 4];
    assert q[0] == b[at] && q[1] == b[at + 1] && q[2] == b[at + 2];
  }

  lemma ColoursLength(palette: seq<Pixel>)
    ensures |Colours(palette)| == 4 * |palette|
  {
    FlatAt(seq(|palette|, i requires 0 <= i < |palette| => Colour(palette[i])), 4, 0);
  }

  function LayoutOf(s: Spec): Layout {
    var (r, g, b, a) := MaskOf(s);
    Layout(s.w, s.h, s.topDown, s.bpp, if s.fields then 3 else 0, r, g, b, a, s.palette, |Front(s)|)
  }

  lemma FrontLength(s: Spec)
    ensures |Front(s)| == 40 + |s.more| + |Behind(s)| + 4 * |s.palette|
  {
    ColoursLength(s.palette);
    hide FirstForty, Behind, Colours;
  }

  lemma FileParts(s: Spec, rows: seq<Bytes>)
    requires Proper(s) && Filled(s, rows)
    ensures var b, at := File(s, rows), 40 + |s.more| + |Behind(s)|;
            && FirstForty(s) <= b && FirstForty(s) + s.more + Behind(s) <= b && Front(s) <= b
            && at + 4 * |s.palette| == |Front(s)| && b[at..at + 4 * |s.palette|] == Colours(s.palette)
            && |b| == |Front(s)| + Stride(LayoutOf(s)) * s.h
  {
    FrontLength(s);
    ColoursLength(s.palette);
    StoredLengths(s, rows, LayoutOf(s));
    FlatAt(Stored(rows, s.topDown), Stride(LayoutOf(s)), 0);
    StartTimes(s.h, Stride(LayoutOf(s)));
    hide FirstForty, Behind, Colours, Stride, Flat, Stored, StartOf;
  }

  lemma StartTimes(h: nat, n: nat)
    ensures StartOf(h, n) == n * h
  {}

  /** The layout without its size. */
  function PlainLayout(s: Spec, at: nat): Layout {
    var (r, g, b, a) := MaskOf(s);
    Layout(s.w, s.h, s.topDown, s.bpp, if s.fields then 3 else 0, r, g, b, a, s.palette, at + 4 * |s.palette|)
  }

  lemma RestParses(s: Spec, b: Bytes, hdrSize: nat, at: nat)
    requires Proper(s) && 40 <= hdrSize <= at && at + 4 * |s.palette| <= |b|
    requires |b| == at + 4 * |s.palette| + Stride(PlainLayout(s, at)) * s.h
    requires Masks(b, hdrSize, if s.fields then 3 else 0) == Ok((MaskOf(s).0, MaskOf(s).1, MaskOf(s).2, MaskOf(s).3, at))
    requires PaletteAt(b, at, |s.palette|) == s.palette
    ensures ParseRest(b, hdrSize, s.w, if s.topDown then -(s.h as int) else s.h, s.bpp, if s.fields then 3 else 0, s.used) == Ok(PlainLayout(s, at))
  {
    hide PaletteAt, Masks, Words, Pow2, Stride, Put32;
  }

  /** The header reads as it says. */
  lemma FileParses(s: Spec, rows: seq<Bytes>)
    requires Proper(s) && Filled(s, rows)
    ensures Parse(File(s, rows)) == Ok(LayoutOf(s))
  {
    var b := File(s, rows);
    FileParts(s, rows);
    FileFields(s, b);
    FileMasks(s, b);
    PaletteReads(b, 40 + |s.more| + |Behind(s)|, s.palette);
    FrontLength(s);
    hide File, Front, FirstForty, Behind, Colours, Stride, LE32, LE16, PaletteAt, Masks, Words, Pow2, Put32, Signed32, ParseRest, Filled;
    var at := 40 + |s.more| + |Behind(s)|;
    assert PlainLayout(s, at) == LayoutOf(s);
    RestParses(s, b, 40 + |s.more|, at);
  }

  // ---- Rows where they belong ----

  lemma RowIs(b: Bytes, l: Layout, y: nat)
    requires Usable(b, l) && y < l.h
    ensures var at := l.offset + StartOf(SourceRow(l, y), Stride(l)); at + Stride(l) <= |b| && Row(b, l, y) == b[at..at + Stride(l)]
  {
    RowFits(SourceRow(l, y), l.h, Stride(l));
    hide StartOf, Stride;
  }

  lemma StoredRow(s: Spec, rows: seq<Bytes>, y: nat)
    requires Filled(s, rows) && y < s.h
    ensures Stored(rows, s.topDown)[SourceRow(LayoutOf(s), y)] == ZeroPadded(rows[y])
  {
    hide Front, ZeroPadded;
  }

  lemma RowsBehindFront(s: Spec, rows: seq<Bytes>)
    ensures |Front(s)| <= |File(s, rows)| && File(s, rows)[|Front(s)|..] == Flat(Stored(rows, s.topDown))
  {
    hide Front, Flat, Stored;
  }

  lemma LayoutFields(s: Spec, rows: seq<Bytes>, y: nat)
    requires Filled(s, rows) && y < s.h
    ensures var l := LayoutOf(s);
            && l.offset == |Front(s)| && l.h == s.h && l.w == s.w && l.bpp == s.bpp
            && |Stored(rows, s.topDown)| == s.h && SourceRow(l, y) < s.h
  {
    hide Front, ZeroPadded;
  }

  lemma FileRow(s: Spec, rows: seq<Bytes>, y: nat)
    requires Proper(s) && Filled(s, rows) && y < s.h && Usable(File(s, rows), LayoutOf(s))
    ensures Row(File(s, rows), LayoutOf(s), y) == ZeroPadded(rows[y])
  {
    var l, o := LayoutOf(s), Stored(rows, s.topDown);
    hide *;
    LayoutFields(s, rows, y);
    var r := SourceRow(l, y);
    RowIs(File(s, rows), l, y);
    StoredRow(s, rows, y);
    StoredLengths(s, rows, l);
    FlatAt(o, Stride(l), r);
    RowsBehindFront(s, rows);
    TailSlice(File(s, rows), |Front(s)|, Flat(o), StartOf(r, Stride(l)), Stride(l));
  }

  lemma TailSlice(b: Bytes, n: nat, t: Bytes, i: nat, k: nat)
    requires n <= |b| && b[n..] == t && i + k <= |t|
    ensures b[n + i..n + i + k] == t[i..i + k]
  {
    assert b[n..][i..i + k] == b[n + i..n + i + k];
  }

  lemma WordIs(t: Bytes, i: nat)
    ensures i + 2 <= |t| ==> LE16(t, i) == Word(t, i, 2)
    ensures i + 4 <= |t| ==> LE32(t, i) == Word(t, i, 4)
  {
    if i + 2 <= |t| { assert Word(t, i + 1, 1) == t[i + 1] + 256 * Word(t, i + 2, 0); }
    if i + 4 <= |t| {
      assert Word(t, i + 3, 1) == t[i + 3] + 256 * Word(t, i + 4, 0);
      assert Word(t, i + 2, 2) == t[i + 2] + 256 * Word(t, i + 3, 1);
      assert Word(t, i + 1, 3) == t[i + 1] + 256 * Word(t, i + 2, 2);
    }
  }

  lemma {:induction false} SpelledInPrefix(t: Bytes, row: Bytes, i: nat, n: nat)
    requires t <= row && i + n <= 8 * |t|
    ensures Spelled(row, i, n) == Spelled(t, i, n)
    decreases n
  {
    hide Slice;
    if n > 0 { SpelledInPrefix(t, row, i, n - 1); }
  }

  lemma WordInPrefix(t: Bytes, row: Bytes, i: nat)
    requires t <= row
    ensures i + 2 <= |t| ==> LE16(row, i) == LE16(t, i)
    ensures i + 4 <= |t| ==> LE32(row, i) == LE32(t, i)
  {}

  lemma PackedShows(s: Spec, t: Bytes, row: Bytes, x: nat)
    requires Proper(s) && |t| == (s.w * s.bpp + 7) / 8 && x < s.w && s.bpp in {1, 4, 8} && t <= row && |row| == Stride(LayoutOf(s))
    ensures PixelIn(row, LayoutOf(s), x) == Shown(s, t, x)
  {
    BytesNeeded(s.w, s.bpp, x);
    PixelFits(LayoutOf(s), x);
    hide Front, Spelled, PackedIndex, Stride, Slice, Words, Put32;
    PackedIsSpelled(row, s.bpp, BitAt(x, s.bpp));
    SpelledInPrefix(t, row, x * s.bpp, s.bpp);
  }

  lemma TripleShows(s: Spec, t: Bytes, row: Bytes, x: nat)
    requires Proper(s) && |t| == (s.w * s.bpp + 7) / 8 && x < s.w && s.bpp == 24 && t <= row && |row| == Stride(LayoutOf(s))
    ensures PixelIn(row, LayoutOf(s), x) == Shown(s, t, x)
  {
    BytesNeeded(s.w, s.bpp, x);
    PixelFits(LayoutOf(s), x);
    hide Front, Stride, Words, Put32, Channel, LE32, LE16, Word;
  }

  lemma PairShows(s: Spec, t: Bytes, row: Bytes, x: nat)
    requires Proper(s) && |t| == (s.w * s.bpp + 7) / 8 && x < s.w && s.bpp == 16 && t <= row && |row| == Stride(LayoutOf(s))
    ensures PixelIn(row, LayoutOf(s), x) == Shown(s, t, x)
  {
    BytesNeeded(s.w, s.bpp, x);
    PixelFits(LayoutOf(s), x);
    WordInPrefix(t, row, 2 * x);
    WordIs(t, 2 * x);
    FiveBitChannels(LE16(row, 2 * x));
    hide Front, Stride, Words, Put32, Channel, LE32, LE16, Word;
  }

  lemma PlainQuad(t: Bytes, row: Bytes, x: nat)
    requires t <= row && 4 * x + 4 <= |t|
    ensures var v := LE32(row, 4 * x);
            && Channel(v, 0xff) == t[4 * x] && Channel(v, 0xff00) == t[4 * x + 1] && Channel(v, 0xff_0000) == t[4 * x + 2]
            && v / 0x100_0000 == t[4 * x + 3]
  {
    hide LE32, LE16, Channel;
    WordOf(row, 4 * x);
    assert row[4 * x..4 * x + 4] == [t[4 * x], t[4 * x + 1], t[4 * x + 2], t[4 * x + 3]];
    WordBytes(t[4 * x], t[4 * x + 1], t[4 * x + 2], t[4 * x + 3]);
    ByteChannels(LE32(row, 4 * x));
  }

  lemma QuadShows(s: Spec, t: Bytes, row: Bytes, x: nat)
    requires Proper(s) && |t| == (s.w * s.bpp + 7) / 8 && x < s.w && s.bpp == 32 && t <= row && |row| == Stride(LayoutOf(s))
    ensures PixelIn(row, LayoutOf(s), x) == Shown(s, t, x)
  {
    BytesNeeded(s.w, s.bpp, x);
    PixelFits(LayoutOf(s), x);
    WordInPrefix(t, row, 4 * x);
    WordIs(t, 4 * x);
    PlainQuad(t, row, x);
    hide Front, Stride, Words, Put32, Channel, LE32, LE16, Word;
  }

  lemma RowShows(s: Spec, t: Bytes, row: Bytes, x: nat)
    requires Proper(s) && |t| == (s.w * s.bpp + 7) / 8 && x < s.w && t <= row && |row| == Stride(LayoutOf(s))
    ensures PixelIn(row, LayoutOf(s), x) == Shown(s, t, x)
  {
    hide PixelIn, Shown, LayoutOf, Stride, Words, Pow2, Put32;
    if s.bpp == 24 { TripleShows(s, t, row, x); }
    else if s.bpp == 16 { PairShows(s, t, row, x); }
    else if s.bpp == 32 { QuadShows(s, t, row, x); }
    else { PackedShows(s, t, row, x); }
  }

  // ---- What comes out ----

  /** Pixel p of the picture as the bytes of its row say. */
  function Picture(s: Spec, rows: seq<Bytes>): (px: seq<Pixel>)
    requires Proper(s) && Filled(s, rows)
    ensures |px| == s.w * s.h
  {
    seq(s.w * s.h, p requires 0 <= p < s.w * s.h => PixelAt(s, rows, p))
  }

  function PixelAt(s: Spec, rows: seq<Bytes>, p: nat): Pixel
    requires Proper(s) && Filled(s, rows) && p < s.w * s.h
  {
    Within(p, s.w, s.h);
    Shown(s, rows[p / s.w], p % s.w)
  }

  lemma FilePixel(s: Spec, rows: seq<Bytes>, p: nat)
    requires Proper(s) && Filled(s, rows) && p < s.w * s.h && Usable(File(s, rows), LayoutOf(s))
    ensures At(File(s, rows), LayoutOf(s), p) == PixelAt(s, rows, p)
  {
    Within(p, s.w, s.h);
    var y, x := p / s.w, p % s.w;
    FileRow(s, rows, y);
    RowShows(s, rows[y], ZeroPadded(rows[y]), x);
    hide Shown, PixelIn, File, Stride, Row, Usable, ZeroPadded, Front, Words, Pow2;
  }

  predicate Invisible(px: seq<Pixel>) {
    forall p | 0 <= p < |px| :: px[p].a == 0
  }

  /** Every bitmap laid out this way decodes to the picture its rows of bytes describe,
      whatever its depth, its masks or palette, the length of its header and the order of
      its rows; except that a 32-bit picture in which nothing can be seen is taken to be
      opaque. */
  lemma EveryBitmapReads(s: Spec, rows: seq<Bytes>)
    requires Proper(s) && Filled(s, rows)
    ensures var px := Picture(s, rows);
            var hidden := s.bpp == 32 && Invisible(px);
            var d := Decode(File(s, rows));
            && d.Ok? && d.value.w == s.w && d.value.h == s.h && |d.value.px| == |px|
            && forall p | 0 <= p < |px| :: d.value.px[p] == if hidden then Pixel(px[p].r, px[p].g, px[p].b, 255) else px[p]
  {
    var b, l, px := File(s, rows), LayoutOf(s), Picture(s, rows);
    FileParses(s, rows);
    ParsedIsUsable(b);
    FilePixels(s, rows);
    assert l.w == s.w && l.h == s.h && l.bpp == s.bpp && Supported(l.bpp);
    assert Invisible(px) <==> forall p: nat | p < s.w * s.h :: px[p].a == 0;
    var n := s.w * s.h;
    hide *;
    DecodedPixels(b, l, !Invisible(px));
    var d := Decode(b).value.px;
    assert |d| == |px| == n;
    forall p | 0 <= p < n ensures d[p] == if s.bpp == 32 && Invisible(px) then Pixel(px[p].r, px[p].g, px[p].b, 255) else px[p] {
      assert At(b, l, p) == px[p];
    }
  }

  lemma FilePixels(s: Spec, rows: seq<Bytes>)
    requires Proper(s) && Filled(s, rows) && Usable(File(s, rows), LayoutOf(s))
    ensures forall p: nat | p < s.w * s.h :: At(File(s, rows), LayoutOf(s), p) == Picture(s, rows)[p]
  {
    hide File, At, Usable, Front, Words, Pow2, PixelAt, Filled, Put32;
    forall p: nat | p < s.w * s.h ensures At(File(s, rows), LayoutOf(s), p) == Picture(s, rows)[p] { FilePixel(s, rows, p); }
  }

  // ---- Pictures written and read back ----

  /** Row y with each pixel written as k bytes. */
  function Line(img: Image, y: nat, write: Pixel -> Bytes): Bytes
    requires Sized(img) && y < img.h
  {
    Flat(seq(img.w, x requires 0 <= x < img.w => write(img.px[PlaceOf(x, y, img.w, img.h)])))
  }

  function Lines(img: Image, write: Pixel -> Bytes): (rows: seq<Bytes>)
    requires Sized(img)
    ensures |rows| == img.h
  {
    seq(img.h, y requires 0 <= y < img.h => Line(img, y, write))
  }

  lemma LineHolds(img: Image, y: nat, write: Pixel -> Bytes, k: nat, x: nat)
    requires Sized(img) && y < img.h && x < img.w && forall c :: |write(c)| == k
    ensures |Line(img, y, write)| == k * img.w && k * x + k <= k * img.w
    ensures Line(img, y, write)[k * x..k * x + k] == write(img.px[PlaceOf(x, y, img.w, img.h)])
  {
    var parts := seq(img.w, x requires 0 <= x < img.w => write(img.px[PlaceOf(x, y, img.w, img.h)]));
    forall j | 0 <= j < |parts| ensures |parts[j]| == k {
      assert parts[j] == write(img.px[PlaceOf(j, y, img.w, img.h)]);
    }
    FlatAt(parts, k, x);
    assert StartOf(x, k) == k * x && StartOf(img.w, k) == k * img.w;
    StartGrows(x, k, img.w);
    hide Flat, StartOf;
  }

  predicate Fits(s: Spec, img: Image) {
    Encodable(img) && Proper(s) && s.w == img.w && s.h == img.h
  }

  /** Every pixel shows what was written for it. */
  ghost predicate ShowsAll(s: Spec, img: Image, rows: seq<Bytes>)
    requires Fits(s, img) && Filled(s, rows)
  {
    forall x, y | 0 <= x < img.w && 0 <= y < img.h :: Shown(s, rows[y], x) == img.px[PlaceOf(x, y, img.w, img.h)]
  }

  lemma WrittenIsRead(s: Spec, img: Image, rows: seq<Bytes>)
    requires Fits(s, img) && Filled(s, rows) && ShowsAll(s, img, rows)
    ensures Decode(File(s, rows)) ==
            Ok(if s.bpp == 32 && Invisible(img.px) then Image(img.w, img.h, Opaque(img.px)) else img)
  {
    assert s.w == img.w && s.h == img.h;
    hide *;
    PictureIs(s, img, rows);
    EveryBitmapReads(s, rows);
    SamePixels(Decode(File(s, rows)).value.px, img.px, s.bpp == 32 && Invisible(img.px));
  }

  lemma SamePixels(px: seq<Pixel>, was: seq<Pixel>, hidden: bool)
    requires |px| == |was| && forall p | 0 <= p < |px| :: px[p] == if hidden then Pixel(was[p].r, was[p].g, was[p].b, 255) else was[p]
    ensures px == if hidden then Opaque(was) else was
  {}

  lemma PictureIs(s: Spec, img: Image, rows: seq<Bytes>)
    requires Fits(s, img) && Filled(s, rows) && ShowsAll(s, img, rows)
    ensures Picture(s, rows) == img.px
  {
    assert |img.px| == s.w * s.h;
    hide Shown, Filled, Proper, PixelAt, Encodable, ShowsAll;
    forall p | 0 <= p < |img.px| ensures Picture(s, rows)[p] == img.px[p] { PixelIs(s, img, rows, p); }
  }

  lemma PixelIs(s: Spec, img: Image, rows: seq<Bytes>, p: nat)
    requires Fits(s, img) && Filled(s, rows) && ShowsAll(s, img, rows) && p < s.w * s.h
    ensures p < |img.px| && PixelAt(s, rows, p) == img.px[p]
  {
    hide Shown, Proper, StartOf, RowOf, ColOf;
    PlaceIs(p, s.w, s.h);
    var x, y := ColOf(p, s.w), RowOf(p, s.w);
    assert Shown(s, rows[y], x) == img.px[PlaceOf(x, y, img.w, img.h)];
  }

  lemma PlaceIs(p: nat, w: nat, h: nat)
    requires p < w * h
    ensures w > 0 && p % w == ColOf(p, w) < w && p / w == RowOf(p, w) < h && PlaceOf(ColOf(p, w), RowOf(p, w), w, h) == p
  {
    Within(p, w, h);
    hide StartOf;
  }

  function Triple(c: Pixel): Bytes { [c.b, c.g, c.r] }

  function Quadruple(c: Pixel): Bytes { [c.b, c.g, c.r, c.a] }

  /** For every opaque picture: write it with 24 bits a pixel, blue, green and red, each row
      filled with zero bytes to a multiple of four, from the bottom up or from the top down,
      behind a header of any size; decoding gives the picture back. */
  lemma TripleRoundTrip(s: Spec, img: Image)
    requires Fits(s, img) && AllOpaque(img.px) && s.bpp == 24
    ensures Decode(File(s, Lines(img, Triple))) == Ok(img)
  {
    var rows := Lines(img, Triple);
    TripleFills(s, img);
    hide *;
    forall x, y | 0 <= x < img.w && 0 <= y < img.h ensures Shown(s, rows[y], x) == img.px[PlaceOf(x, y, img.w, img.h)] {
      TriplePixel(s, img, x, y);
    }
    ShownAll(s, img, rows);
    WrittenIsRead(s, img, rows);
  }

  lemma ShownAll(s: Spec, img: Image, rows: seq<Bytes>)
    requires Fits(s, img) && Filled(s, rows)
    requires forall x, y | 0 <= x < img.w && 0 <= y < img.h :: Shown(s, rows[y], x) == img.px[PlaceOf(x, y, img.w, img.h)]
    ensures ShowsAll(s, img, rows)
  {
    hide Shown, Filled, Proper, Encodable, PlaceOf;
  }

  lemma TripleFills(s: Spec, img: Image)
    requires Fits(s, img) && s.bpp == 24
    ensures Filled(s, Lines(img, Triple))
  {
    forall y | 0 <= y < img.h ensures |Lines(img, Triple)[y]| == 3 * img.w { LineHolds(img, y, Triple, 3, 0); }
  }

  lemma TriplePixel(s: Spec, img: Image, x: nat, y: nat)
    requires Fits(s, img) && s.bpp == 24 && AllOpaque(img.px) && x < img.w && y < img.h && Filled(s, Lines(img, Triple))
    ensures Shown(s, Lines(img, Triple)[y], x) == img.px[PlaceOf(x, y, img.w, img.h)]
  {
    LineHolds(img, y, Triple, 3, x);
    var t, c := Line(img, y, Triple), img.px[PlaceOf(x, y, img.w, img.h)];
    var q := t[3 * x..3 * x + 3];
    assert t[3 * x] == q[0] && t[3 * x + 1] == q[1] && t[3 * x + 2] == q[2];
    hide Line, PlaceOf, Put32, Pow2;
  }

  /** The same for any picture with 32 bits a pixel, alpha included, unless there is nothing
      to see in it: then it comes back opaque. */
  lemma QuadRoundTrip(s: Spec, img: Image)
    requires Fits(s, img) && s.bpp == 32 && !s.fields
    ensures Decode(File(s, Lines(img, Quadruple))) ==
            Ok(if Invisible(img.px) then Image(img.w, img.h, Opaque(img.px)) else img)
  {
    var rows := Lines(img, Quadruple);
    QuadFills(s, img);
    assert s.bpp == 32;
    hide *;
    forall x, y | 0 <= x < img.w && 0 <= y < img.h ensures Shown(s, rows[y], x) == img.px[PlaceOf(x, y, img.w, img.h)] {
      QuadPixel(s, img, x, y);
    }
    ShownAll(s, img, rows);
    WrittenIsRead(s, img, rows);
  }

  lemma QuadFills(s: Spec, img: Image)
    requires Fits(s, img) && s.bpp == 32
    ensures Filled(s, Lines(img, Quadruple))
  {
    forall y | 0 <= y < img.h ensures |Lines(img, Quadruple)[y]| == 4 * img.w { LineHolds(img, y, Quadruple, 4, 0); }
  }

  lemma QuadPixel(s: Spec, img: Image, x: nat, y: nat)
    requires Fits(s, img) && s.bpp == 32 && !s.fields && x < img.w && y < img.h && Filled(s, Lines(img, Quadruple))
    ensures Shown(s, Lines(img, Quadruple)[y], x) == img.px[PlaceOf(x, y, img.w, img.h)]
  {
    LineHolds(img, y, Quadruple, 4, x);
    var t := Line(img, y, Quadruple);
    var q := t[4 * x..4 * x + 4];
    assert t[4 * x] == q[0] && t[4 * x + 1] == q[1] && t[4 * x + 2] == q[2] && t[4 * x + 3] == q[3];
    hide Line, PlaceOf, Put32, Pow2;
  }

  // ---- With a palette ----

  /** A picture whose pixels are numbers into a palette. */
  function Painted(s: Spec, index: seq<byte>): Image
    requires Proper(s) && |index| == s.w * s.h
  {
    Image(s.w, s.h, seq(|index|, p requires 0 <= p < |index| => if index[p] < |s.palette| then s.palette[index[p]] else Pixel(0, 0, 0, 0)))
  }

  function IndexRows(index: seq<byte>, w: nat, h: nat): seq<Bytes>
    requires |index| == w * h
  {
    seq(h, y requires 0 <= y < h => IndexRow(index, w, h, y))
  }

  function IndexRow(index: seq<byte>, w: nat, h: nat, y: nat): (row: Bytes)
    requires |index| == w * h && y < h
    ensures |row| == w
  {
    StartGrows(y, w, h);
    index[StartOf(y, w)..StartOf(y, w) + w]
  }

  lemma ByteSpelled(t: Bytes, x: nat)
    requires x < |t|
    ensures Spelled(t, x * 8, 8) == t[x]
  {
    PackedIsSpelled(t, 8, x * 8);
    Pow2Values();
    assert x * 8 / 8 == x && x * 8 % 8 == 0;
    WholeSlice(t[x]);
    hide Spelled, Slice;
  }

  lemma WholeSlice(v: nat)
    requires v < 256
    ensures Slice(v, 8, 0) == v
  {
    Pow2Values();
    assert Pow2(0) == 1;
  }

  /** For every picture with a palette of up to any size the header names: write one byte a
      pixel, rows filled up as always; decoding gives each pixel its colour. */
  lemma PaletteRoundTrip(s: Spec, index: seq<byte>)
    requires Proper(s) && s.bpp == 8 && |index| == s.w * s.h
    ensures Decode(File(s, IndexRows(index, s.w, s.h))) == Ok(Painted(s, index))
  {
    var rows, img := IndexRows(index, s.w, s.h), Painted(s, index);
    assert Filled(s, rows) && Fits(s, img);
    hide File, Decode, Shown, Filled, Proper, IndexRows, Painted, Fits;
    forall x, y | 0 <= x < img.w && 0 <= y < img.h ensures Shown(s, rows[y], x) == img.px[PlaceOf(x, y, img.w, img.h)] {
      IndexShows(s, index, x, y);
    }
    WrittenIsRead(s, img, rows);
  }

  lemma IndexShows(s: Spec, index: seq<byte>, x: nat, y: nat)
    requires Proper(s) && s.bpp == 8 && |index| == s.w * s.h && x < s.w && y < s.h
    ensures Shown(s, IndexRow(index, s.w, s.h, y), x) == Painted(s, index).px[PlaceOf(x, y, s.w, s.h)]
  {
    ByteSpelled(IndexRow(index, s.w, s.h, y), x);
    IndexAt(index, s.w, s.h, x, y);
    hide Spelled, IndexRow, PlaceOf, Pow2, Put32;
  }

  lemma IndexAt(index: seq<byte>, w: nat, h: nat, x: nat, y: nat)
    requires |index| == w * h && x < w && y < h
    ensures IndexRow(index, w, h, y)[x] == index[PlaceOf(x, y, w, h)]
  {
    StartGrows(y, w, h);
    var at, n := StartOf(y, w), w * h;
    assert at + w <= n && PlaceOf(x, y, w, h) == at + x && IndexRow(index, w, h, y) == index[at..at + w];
    hide *;
  }

  // ---- With masks ----

  /** Five bits of red, six of green and five of blue. */
  function Packed565(r: nat, g: nat, b: nat): nat {
    2048 * r + 32 * g + b
  }

  /** A 16-bit pixel behind a header that names the masks of 5, 6 and 5 bits shows each
      number scaled to 0..255. */
  lemma FiveSixFive(s: Spec, t: Bytes, x: nat, r: nat, g: nat, b: nat)
    requires Proper(s) && s.bpp == 16 && s.fields && s.r == 0xf800 && s.g == 0x7e0 && s.b == 0x1f && |t| == (s.w * 16 + 7) / 8 && x < s.w
    requires r < 32 && g < 64 && b < 32 && 2 * x + 2 <= |t| && t[2 * x..2 * x + 2] == Put16(Packed565(r, g, b))
    ensures Shown(s, t, x) == Pixel(r * 255 / 31, g * 255 / 63, b * 255 / 31, 255)
  {
    assert Packed565(r, g, b) < 0x1_0000;
    PairWord(t, 2 * x, Packed565(r, g, b));
    Masks565(r, g, b);
    hide Word, Channel, Packed565, Put16, Put32, Pow2;
  }

  lemma PairWord(t: Bytes, i: nat, v: nat)
    requires i + 2 <= |t| && t[i..i + 2] == Put16(v) && v < 0x1_0000
    ensures Word(t, i, 2) == v
  {
    var q := t[i..i + 2];
    assert q[0] == t[i] && q[1] == t[i + 1];
    assert Word(t, i + 1, 1) == t[i + 1] + 256 * Word(t, i + 2, 0);
  }

  lemma Masks565(r: nat, g: nat, b: nat)
    requires r < 32 && g < 64 && b < 32
    ensures var v := Packed565(r, g, b);
            Channel(v, 0xf800) == r * 255 / 31 && Channel(v, 0x7e0) == g * 255 / 63 && Channel(v, 0x1f) == b * 255 / 31
  {
    var v := Packed565(r, g, b);
    Slices565(r, g, b);
    hide Channel, Slice, Adjacent, Pow2, Packed565;
    ChannelOfAdjacent(v, 5, 11);
    ChannelOfAdjacent(v, 6, 5);
    ChannelOfAdjacent(v, 5, 0);
  }

  lemma Slices565(r: nat, g: nat, b: nat)
    requires r < 32 && g < 64 && b < 32
    ensures var v := Packed565(r, g, b); Slice(v, 5, 11) == r && Slice(v, 6, 5) == g && Slice(v, 5, 0) == b
    ensures Adjacent(5, 11) == 0xf800 && Adjacent(6, 5) == 0x7e0 && Adjacent(5, 0) == 0x1f && Pow2(5) == 32 && Pow2(6) == 64
  {
    Powers565();
    Parts565(r, g, b);
    hide Pow2, Packed565;
  }

  lemma Powers565()
    ensures Pow2(0) == 1 && Pow2(5) == 32 && Pow2(6) == 64 && Pow2(11) == 2048
  {
    assert Pow2(5) == 32 && Pow2(6) == 64;
    assert Pow2(8) == 256 && Pow2(11) == 8 * Pow2(8);
  }

  lemma Parts565(r: nat, g: nat, b: nat)
    requires r < 32 && g < 64 && b < 32
    ensures var v := Packed565(r, g, b); v / 2048 % 32 == r && v / 32 % 64 == g && v / 1 % 32 == b
  {}

  // ---- What decodes at all ----

  function Height(dib: Bytes): int
    requires |dib| >= 40
  {
    Signed32(LE32(dib, 8))
  }

  /** A header within its bounds. */
  predicate GoodHeader(dib: Bytes) {
    && |dib| >= 40 && 40 <= LE32(dib, 0) <= |dib| && 1 <= Signed32(LE32(dib, 4)) <= 32768
    && (1 <= Height(dib) <= 32768 || -32768 <= Height(dib) <= -1)
  }

  /** Where the masks end. */
  function MasksUntil(dib: Bytes): nat
    requires |dib| >= 40
  {
    LE32(dib, 0) + if LE32(dib, 16) == 3 && LE32(dib, 0) < 52 then 12 else 0
  }

  function Entries(dib: Bytes): nat
    requires |dib| >= 40
  {
    if LE16(dib, 14) > 8 then 0 else if LE32(dib, 32) == 0 then Pow2(LE16(dib, 14)) else LE32(dib, 32)
  }

  /** How many bytes the rows take: whole words each. */
  function RowBytes(dib: Bytes): int
    requires |dib| >= 40
  {
    var h := Height(dib);
    (Signed32(LE32(dib, 4)) * LE16(dib, 14) + 31) / 32 * 4 * (if h < 0 then -h else h)
  }

  /** Which byte strings decode, and what is wrong with each of the others. */
  lemma DecodesExactly(dib: Bytes)
    ensures Decode(dib) == Err(TooShort) <==> |dib| < 40
    ensures Decode(dib) == Err(BadHeader) <==> |dib| >= 40 && !GoodHeader(dib)
    ensures Decode(dib) == Err(Compressed) <==> GoodHeader(dib) && LE32(dib, 16) !in {0, 3}
    ensures Decode(dib) == Err(MissingMasks) <==> GoodHeader(dib) && LE32(dib, 16) == 3 && |dib| < MasksUntil(dib)
    ensures Decode(dib) == Err(ShortPalette) <==>
            GoodHeader(dib) && LE32(dib, 16) in {0, 3} && MasksUntil(dib) <= |dib| < MasksUntil(dib) + 4 * Entries(dib)
    ensures Decode(dib) == Err(ShortPixels) <==>
            GoodHeader(dib) && LE32(dib, 16) in {0, 3}
            && MasksUntil(dib) + 4 * Entries(dib) <= |dib| < MasksUntil(dib) + 4 * Entries(dib) + RowBytes(dib)
    ensures Decode(dib).Ok? <==>
            GoodHeader(dib) && LE32(dib, 16) in {0, 3} && LE16(dib, 14) in {1, 4, 8, 16, 24, 32}
            && |dib| >= MasksUntil(dib) + 4 * Entries(dib) + RowBytes(dib)
  {
    hide LE32, LE16, Signed32, PaletteAt, Pow2, Raster, RowBytes, ParseRest, Supported;
    DecodeFaults(dib);
    hide Decode;
    if GoodHeader(dib) {
      HeaderParses(dib);
      RestExactly(dib, LE32(dib, 0), Signed32(LE32(dib, 4)), Height(dib), LE16(dib, 14), LE32(dib, 16), LE32(dib, 32));
      hide Parse;
      RowBytesAre(dib);
      DecodedIfSupported(dib);
    }
  }

  lemma DecodedIfSupported(dib: Bytes)
    ensures Parse(dib).Ok? ==> (Decode(dib).Ok? <==> Parse(dib).value.bpp in {1, 4, 8, 16, 24, 32})
    ensures Parse(dib).Ok? && Decode(dib).Err? ==> Decode(dib) == Err(UnsupportedDepth)
  {
    hide Parse, Raster;
  }

  lemma HeaderParses(dib: Bytes)
    requires GoodHeader(dib)
    ensures Parse(dib) == ParseRest(dib, LE32(dib, 0), Signed32(LE32(dib, 4)), Height(dib), LE16(dib, 14), LE32(dib, 16), LE32(dib, 32))
  {
    hide LE32, LE16, Signed32, ParseRest;
  }

  lemma RowBytesAre(dib: Bytes)
    requires GoodHeader(dib)
    ensures RowBytes(dib) == RowsOf(Signed32(LE32(dib, 4)), Height(dib), LE16(dib, 14))
  {
    hide LE32, LE16, Signed32;
  }

  function RowsOf(w: nat, h: int, bpp: nat): int {
    (w * bpp + 31) / 32 * 4 * (if h < 0 then -h else h)
  }

  lemma RestExactly(dib: Bytes, hdrSize: nat, w: nat, h: int, bpp: nat, comp: nat, used: nat)
    requires 40 <= hdrSize <= |dib| && h != 0
    ensures var until := hdrSize + if comp == 3 && hdrSize < 52 then 12 else 0;
            var n := if bpp > 8 then 0 else if used == 0 then Pow2(bpp) else used;
            var r := ParseRest(dib, hdrSize, w, h, bpp, comp, used);
            && (comp !in {0, 3} ==> r == Err(Compressed))
            && (comp == 3 && |dib| < until ==> r == Err(MissingMasks))
            && (comp in {0, 3} && until <= |dib| < until + 4 * n ==> r == Err(ShortPalette))
            && (comp in {0, 3} && until + 4 * n <= |dib| < until + 4 * n + RowsOf(w, h, bpp) ==> r == Err(ShortPixels))
            && (comp in {0, 3} && until + 4 * n <= |dib| && until + 4 * n + RowsOf(w, h, bpp) <= |dib| ==> r.Ok? && r.value.bpp == bpp)
  {
    hide LE32, PaletteAt, Pow2;
    var masks := Masks(dib, hdrSize, comp);
    MasksExactly(dib, hdrSize, comp);
    hide Masks;
    if masks.Ok? {
      var n := PaletteSize(bpp, used);
      if masks.value.4 + 4 * n <= |dib| {
        var (r, g, b, a, at) := masks.value;
        var l := Layout(w, if h < 0 then -h else h, h < 0, bpp, comp, r, g, b, a, PaletteAt(dib, at, n), at + 4 * n);
        AreaIs(l, h);
        hide RowsOf, Stride;
        assert ParseRest(dib, hdrSize, w, h, bpp, comp, used) == if |dib| < l.offset + Stride(l) * l.h then Err(ShortPixels) else Ok(l);
      }
    }
  }

  lemma AreaIs(l: Layout, h: int)
    requires l.h == if h < 0 then -h else h
    ensures Stride(l) * l.h == RowsOf(l.w, h, l.bpp) >= 0
  {}

  lemma MasksExactly(dib: Bytes, hdrSize: nat, comp: nat)
    requires 40 <= hdrSize <= |dib|
    ensures var until := hdrSize + if comp == 3 && hdrSize < 52 then 12 else 0;
            var m := Masks(dib, hdrSize, comp);
            m == Err(Compressed) || m == Err(MissingMasks) || (m.Ok? && m.value.4 == until)
    ensures Masks(dib, hdrSize, comp) == Err(Compressed) <==> comp !in {0, 3}
    ensures Masks(dib, hdrSize, comp) == Err(MissingMasks) <==> comp == 3 && hdrSize < 52 && |dib| < hdrSize + 12
  {
    hide LE32;
  }
}
