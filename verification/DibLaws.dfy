/** The bitmap encoder, and what encoder and decoder are to each other
    (internal/clipboard/image.go). */
module DibLaws {
  import opened Basics
  import opened Endian
  import opened Bits
  import opened Dib

  // ---- Compositing onto white ----

  function Blend(v: byte, a: byte): (r: byte)
    ensures v <= r
    ensures a == 255 ==> r == v
    ensures a == 0 ==> r == 255
  {
    var sum: int := v * a + 255 * (255 - a);
    BlendBounds(v, a);
    sum / 255
  }

  lemma BlendBounds(v: int, a: int)
    requires 0 <= v <= 255 && 0 <= a <= 255
    ensures 255 * v <= v * a + 255 * (255 - a) <= 255 * 255
  {
    MulMonotone(0, 255 - v, 255 - a);
    assert (255 - v) * (255 - a) == 255 * 255 - 255 * v - 255 * a + v * a;
    MulMonotone(v, 255, a);
  }

  /** A colour v of opacity a over white, in 255ths, rounded down. */
  lemma BlendIsExact(v: byte, a: byte)
    ensures 255 * Blend(v, a) <= v * a + 255 * (255 - a) < 255 * (Blend(v, a) + 1)
  {}

  function OnWhite(c: Pixel): Pixel {
    Pixel(Blend(c.r, c.a), Blend(c.g, c.a), Blend(c.b, c.a), 255)
  }

  function Composited(px: seq<Pixel>): (o: seq<Pixel>)
    ensures |o| == |px|
  {
    seq(|px|, p requires 0 <= p < |px| => OnWhite(px[p]))
  }

  // ---- The encoder ----

  /** A 32-bit top-down header: the height is stored negated. */
  function Header(w: nat, h: nat): (b: Bytes)
    ensures |b| == 40
  {
    Put32(40) + Put32(w) + Put32(Unsigned32(-(h as int))) + Put16(1) + Put16(32) + Put32(BI_RGB) + Put32(w * h * 4)
    + seq(16, _ => 0)
  }

  /** Blue, green, red and 255 for each pixel. */
  function Body(px: seq<Pixel>): (b: Bytes)
    ensures |b| == 4 * |px|
  {
    seq(4 * |px|, i requires 0 <= i < 4 * |px| => Quad(px[i / 4])[i % 4])
  }

  function Encode(img: Image): Bytes {
    Header(img.w, img.h) + Body(img.px)
  }

  method PutAll(out: array<byte>, at: nat, b: Bytes)
    requires at + |b| <= out.Length
    modifies out
    ensures out[..at + |b|] == old(out[..at]) + b
    ensures forall k | at + |b| <= k < out.Length :: out[k] == old(out[k])
  {
    for i := 0 to |b|
      invariant out[..at + i] == old(out[..at]) + b[..i]
      invariant forall k | at + i <= k < out.Length :: out[k] == old(out[k])
    {
      out[at + i] := b[i];
    }
    assert b[..|b|] == b;
  }

  method PutHeader(out: array<byte>, w: nat, h: nat)
    requires out.Length >= 40 && forall i | 0 <= i < out.Length :: out[i] == 0
    modifies out
    ensures out[..40] == Header(w, h)
  {
    hide Put32, Put16;
    PutAll(out, 0, Put32(40));
    PutAll(out, 4, Put32(w));
    PutAll(out, 8, Put32(Unsigned32(-(h as int))));
    PutAll(out, 12, Put16(1));
    PutAll(out, 14, Put16(32));
    PutAll(out, 16, Put32(BI_RGB));
    PutAll(out, 20, Put32(w * h * 4));
    assert out[..40] == out[..24] + seq(16, _ => 0);
  }

  function Quad(c: Pixel): (q: Bytes)
    ensures |q| == 4
  {
    [Blend(c.b, c.a), Blend(c.g, c.a), Blend(c.r, c.a), 255]
  }

  /** The bytes of pixel p, behind the header. */
  function Held(out: array<byte>, p: nat): Bytes
    requires 44 + 4 * p <= out.Length
    reads out
  {
    out[40 + 4 * p..44 + 4 * p]
  }

  method PutPixel(out: array<byte>, p: nat, c: Pixel)
    requires 44 + 4 * p <= out.Length
    modifies out
    ensures Held(out, p) == Quad(c) && out[..40] == old(out[..40])
    ensures forall q: nat | q < p :: Held(out, q) == old(Held(out, q))
  {
    var i := 40 + 4 * p;
    out[i], out[i + 1], out[i + 2], out[i + 3] := Blend(c.b, c.a), Blend(c.g, c.a), Blend(c.r, c.a), 255;
  }

  lemma AllHeld(out: array<byte>, px: seq<Pixel>)
    requires out.Length == 40 + 4 * |px|
    requires forall p: nat | p < |px| :: Held(out, p) == Quad(px[p])
    ensures out[40..] == Body(px)
  {
    forall i | 0 <= i < 4 * |px| ensures out[40..][i] == Body(px)[i] {
      assert Held(out, i / 4)[i % 4] == Quad(px[i / 4])[i % 4];
    }
  }

  method PutRow(out: array<byte>, img: Image, y: nat)
    requires Sized(img) && out.Length == 40 + 4 * |img.px| && y < img.h && StartOf(y, img.w) + img.w <= |img.px|
    requires forall p: nat | p < StartOf(y, img.w) :: Held(out, p) == Quad(img.px[p])
    modifies out
    ensures forall p: nat | p < StartOf(y, img.w) + img.w :: Held(out, p) == Quad(img.px[p])
    ensures out[..40] == old(out[..40])
  {
    hide Quad, StartOf;
    var x := 0;
    while x < img.w
      invariant 0 <= x <= img.w && out[..40] == old(out[..40])
      invariant forall p: nat | p < StartOf(y, img.w) + x :: Held(out, p) == Quad(img.px[p])
    {
      PutPixel(out, StartOf(y, img.w) + x, img.px[StartOf(y, img.w) + x]);
      x := x + 1;
    }
  }

  method ImageToDIB(img: Image) returns (out: array<byte>)
    requires Sized(img)
    ensures fresh(out) && out[..] == Encode(img)
  {
    hide Header, Quad, Body;
    var size := img.w * img.h * 4;
    out := new byte[40 + size](_ => 0);
    PutHeader(out, img.w, img.h);
    assert StartOf(0, img.w) == 0 && StartOf(img.h, img.w) == |img.px|;
    hide StartOf;
    var y := 0;
    while y < img.h
      invariant 0 <= y <= img.h
      invariant out[..40] == Header(img.w, img.h)
      invariant forall p: nat | p < StartOf(y, img.w) :: p < |img.px| && Held(out, p) == Quad(img.px[p])
    {
      StartGrows(y, img.w, img.h);
      PutRow(out, img, y);
      y := y + 1;
    }
    AllHeld(out, img.px);
    assert out[..] == out[..40] + out[40..];
  }

  // ---- Round trip ----

  lemma WordOf(b: Bytes, i: nat)
    requires i + 4 <= |b|
    ensures LE32(b, i) == LE32(b[i..i + 4], 0) && LE16(b, i) == LE16(b[i..i + 2], 0)
    ensures LE32([0, 0, 0, 0], 0) == 0
  {}

  lemma HeaderSlices(w: nat, h: nat)
    ensures var b := Header(w, h);
            && b[0..4] == Put32(40) && b[4..8] == Put32(w) && b[8..12] == Put32(Unsigned32(-(h as int)))
            && b[14..16] == Put16(32) && b[16..20] == Put32(BI_RGB) && b[32..36] == [0, 0, 0, 0]
  {
    hide Put32, Put16;
  }

  lemma HeaderFields(w: nat, h: nat)
    ensures var b := Header(w, h);
            && LE32(b, 0) == 40 && LE32(b, 4) == w % TWO_32 && LE32(b, 8) == Unsigned32(-(h as int))
            && LE16(b, 14) == 32 && LE32(b, 16) == BI_RGB && LE32(b, 32) == 0
  {
    hide Header, Put32, Put16, LE32, LE16;
    var b := Header(w, h);
    HeaderSlices(w, h);
    LittleEndianRoundTrip(40);
    LittleEndianRoundTrip(w);
    LittleEndianRoundTrip(Unsigned32(-(h as int)));
    LittleEndianRoundTrip(32);
    LittleEndianRoundTrip(BI_RGB);
    WordOf(b, 0);
    WordOf(b, 4);
    WordOf(b, 8);
    WordOf(b, 14);
    WordOf(b, 16);
    WordOf(b, 32);
  }

  lemma OtherSlices(w: nat, h: nat)
    ensures var b := Header(w, h);
            && b[12..14] == Put16(1) && b[20..24] == Put32(w * h * 4) && b[24..28] == [0, 0, 0, 0] && b[28..32] == [0, 0, 0, 0] && b[36..40] == [0, 0, 0, 0]
  {
    hide Put32, Put16;
  }

  /** The fields the decoder does not look at are right as well: one plane, the size of the
      pixels, and zeros. */
  lemma OtherFields(w: nat, h: nat)
    ensures var b := Header(w, h);
            LE16(b, 12) == 1 && LE32(b, 20) == w * h * 4 % TWO_32 && LE32(b, 24) == 0 && LE32(b, 28) == 0 && LE32(b, 36) == 0
  {
    hide Header, Put32, Put16, LE32, LE16;
    OtherSlices(w, h);
    LittleEndianRoundTrip(1);
    LittleEndianRoundTrip(w * h * 4);
    WordOf(Header(w, h), 12);
    WordOf(Header(w, h), 20);
    WordOf(Header(w, h), 24);
    WordOf(Header(w, h), 28);
    WordOf(Header(w, h), 36);
  }

  predicate Encodable(img: Image) {
    Sized(img) && 1 <= img.w <= MAX_SIDE && 1 <= img.h <= MAX_SIDE
  }

  lemma EncodedFields(img: Image)
    requires img.w < TWO_31 && img.h < TWO_31
    ensures var b := Encode(img);
            && |b| == 40 + 4 * |img.px|
            && LE32(b, 0) == 40 && Signed32(LE32(b, 4)) == img.w && Signed32(LE32(b, 8)) == -(img.h as int)
            && LE16(b, 14) == 32 && LE32(b, 16) == BI_RGB && LE32(b, 32) == 0
  {
    hide Header, Body, LE32, LE16;
    var b, head := Encode(img), Header(img.w, img.h);
    HeaderFields(img.w, img.h);
    assert b[..40] == head;
    Leading(b, 0);
    Leading(b, 4);
    Leading(b, 8);
    Leading(b, 14);
    Leading(b, 16);
    Leading(b, 32);
  }

  lemma Leading(b: Bytes, i: nat)
    requires i + 4 <= 40 <= |b|
    ensures LE32(b, i) == LE32(b[..40], i) && LE16(b, i) == LE16(b[..40], i)
  {}

  lemma StrideArea(w: nat, h: nat)
    ensures (w * 32 + 31) / 32 * 4 == 4 * w && 4 * w * h == 4 * (w * h)
  {}

  /** The header's reading of an encoded image. */
  lemma EncodedParses(img: Image)
    requires Sized(img) && img.w < TWO_31 && img.h < TWO_31
    ensures !Encodable(img) ==> Parse(Encode(img)) == Err(BadHeader)
    ensures Encodable(img) ==> Parse(Encode(img)) == Ok(EncodedLayout(img))
  {
    var dib := Encode(img);
    EncodedFields(img);
    StrideArea(img.w, img.h);
    hide Encode, LE32, LE16, Signed32, PaletteAt;
    if Encodable(img) {
      assert Masks(dib, 40, BI_RGB) == Ok((0xff_0000, 0xff00, 0xff, 0, 40));
      assert PaletteAt(dib, 40, 0) == [];
    }
  }

  function EncodedLayout(img: Image): Layout {
    Layout(img.w, img.h, true, 32, BI_RGB, 0xff_0000, 0xff00, 0xff, 0, [], 40)
  }

  lemma EncodedUsable(img: Image)
    requires Encodable(img)
    ensures Usable(Encode(img), EncodedLayout(img)) && Stride(EncodedLayout(img)) == 4 * img.w
  {
    hide Parse, Encode, Usable;
    EncodedParses(img);
    ParsedIsUsable(Encode(img));
  }

  lemma EncodedRow(img: Image, y: nat)
    requires Encodable(img) && y < img.h
    requires Usable(Encode(img), EncodedLayout(img)) && Stride(EncodedLayout(img)) == 4 * img.w
    ensures var at, b := 40 + 4 * StartOf(y, img.w), Encode(img);
            at + 4 * img.w <= |b| && Row(b, EncodedLayout(img), y) == b[at..at + 4 * img.w]
  {
    RowStart(y, img.w);
    RowFits(y, img.h, 4 * img.w);
    hide Stride, Encode, StartOf;
  }

  /** The bytes of one encoded pixel, where the decoder looks for them. */
  lemma EncodedBytes(img: Image, x: nat, y: nat, p: nat)
    requires Encodable(img) && x < img.w && y < img.h && p == StartOf(y, img.w) + x && p < |img.px|
    requires Usable(Encode(img), EncodedLayout(img)) && Stride(EncodedLayout(img)) == 4 * img.w
    ensures Row(Encode(img), EncodedLayout(img), y)[4 * x..4 * x + 4] == Quad(img.px[p])
  {
    hide *;
    BodyBytes(img, p);
    EncodedRow(img, y);
    SliceOfSlice(Encode(img), 40 + 4 * StartOf(y, img.w), 4 * img.w, 4 * x);
  }

  lemma RowStart(y: nat, w: nat)
    ensures StartOf(y, 4 * w) == 4 * StartOf(y, w)
  {}

  lemma SliceOfSlice(b: Bytes, at: nat, n: nat, i: nat)
    requires at + n <= |b| && i + 4 <= n
    ensures b[at..at + n][i..i + 4] == b[at + i..at + i + 4]
  {
    var s := b[at..at + n];
    assert forall k | i <= k < i + 4 :: s[k] == b[at + k];
  }

  lemma BodyBytes(img: Image, p: nat)
    requires p < |img.px|
    ensures Encode(img)[40 + 4 * p..44 + 4 * p] == Quad(img.px[p])
  {
    hide Header, Quad;
    var body := Body(img.px);
    assert Encode(img)[40 + 4 * p..44 + 4 * p] == body[4 * p..4 * p + 4];
    forall k | 0 <= k < 4 ensures body[4 * p + k] == Quad(img.px[p])[k] {}
  }

  lemma WordBytes(b0: byte, b1: byte, b2: byte, b3: byte)
    ensures var v := LE32([b0, b1, b2, b3], 0);
            v % 256 == b0 && v / 256 % 256 == b1 && v / 0x1_0000 % 256 == b2 && v / 0x100_0000 == b3
  {}

  /** One encoded pixel reads back composited. */
  lemma EncodedPixel(img: Image, x: nat, y: nat, p: nat)
    requires Encodable(img) && x < img.w && y < img.h && p == StartOf(y, img.w) + x && p < |img.px|
    requires Usable(Encode(img), EncodedLayout(img)) && Stride(EncodedLayout(img)) == 4 * img.w
    ensures PixelIn(Row(Encode(img), EncodedLayout(img), y), EncodedLayout(img), x) == OnWhite(img.px[p])
  {
    hide Row, Encode, Channel, LE32, LE16, Blend, Stride, Usable, StartOf, Encodable;
    var c := img.px[p];
    var row := Row(Encode(img), EncodedLayout(img), y);
    EncodedBytes(img, x, y, p);
    WordOf(row, 4 * x);
    WordBytes(Blend(c.b, c.a), Blend(c.g, c.a), Blend(c.r, c.a), 255);
    ByteChannels(LE32(row, 4 * x));
  }

  lemma EncodedAt(img: Image, p: nat)
    requires Encodable(img) && p < |img.px|
    requires Usable(Encode(img), EncodedLayout(img)) && Stride(EncodedLayout(img)) == 4 * img.w
    ensures At(Encode(img), EncodedLayout(img), p) == OnWhite(img.px[p])
  {
    hide Encode, PixelIn, Row, OnWhite, Stride, StartOf, RowOf, ColOf, Usable;
    Within(p, img.w, img.h);
    EncodedPixel(img, ColOf(p, img.w), RowOf(p, img.w), p);
  }

  /** For every image, encoding and decoding succeeds exactly when both sides are within
      1..32768, and then gives the same image composited onto white: opaque, and no
      channel darker than it was. */
  lemma RoundTrip(img: Image)
    requires Sized(img) && img.w < TWO_31 && img.h < TWO_31
    ensures Decode(Encode(img)) == if Encodable(img) then Ok(Image(img.w, img.h, Composited(img.px))) else Err(BadHeader)
  {
    hide Encode, Parse, At, OnWhite, Stride, Decode;
    EncodedParses(img);
    DecodeFaults(Encode(img));
    if Encodable(img) {
      EncodedUsable(img);
      forall p: nat | p < |img.px| ensures At(Encode(img), EncodedLayout(img), p) == OnWhite(img.px[p]) {
        EncodedAt(img, p);
      }
      OnWhiteIsOpaque();
      Place(0, 0, img.w, img.h);
      assert At(Encode(img), EncodedLayout(img), 0).a == 255;
      DecodedPixels(Encode(img), EncodedLayout(img), true);
      assert Decode(Encode(img)).value.px == Composited(img.px);
    }
  }

  lemma OnWhiteIsOpaque()
    ensures forall c :: OnWhite(c).a == 255
  {}

  predicate AllOpaque(px: seq<Pixel>) {
    forall p | 0 <= p < |px| :: px[p].a == 255
  }

  /** An opaque image comes back unchanged. */
  lemma OpaqueRoundTrip(img: Image)
    requires Encodable(img) && AllOpaque(img.px)
    ensures Decode(Encode(img)) == Ok(img)
  {
    RoundTrip(img);
    hide Decode, Encode;
    assert Composited(img.px) == img.px;
  }

  /** So a second trip through the clipboard changes nothing more. */
  lemma SecondTripIsExact(img: Image)
    requires Encodable(img)
    ensures var once := Decode(Encode(img)); once.Ok? && Decode(Encode(once.value)) == once
  {
    RoundTrip(img);
    hide Decode, Encode;
    OpaqueRoundTrip(Image(img.w, img.h, Composited(img.px)));
  }

  // ---- One picture, several depths ----

  /** Bit number i of a row, counting from the most significant bit of its first byte. */
  function Bit(row: Bytes, i: nat): nat
    requires i < 8 * |row|
  {
    Slice(row[i / 8], 1, 7 - i % 8)
  }

  /** The number that n bits from bit i on spell out. */
  function Spelled(row: Bytes, i: nat, n: nat): nat
    requires i + n <= 8 * |row|
  {
    if n == 0 then 0 else 2 * Spelled(row, i, n - 1) + Bit(row, i + n - 1)
  }

  /** A packed pixel is the number its bits spell out, read from left to right. */
  lemma {:induction false} PackedIsSpelled(row: Bytes, n: nat, i: nat)
    requires n > 0 && i + n <= 8 * |row| && i % 8 + n <= 8
    ensures PackedIndex(row, n, i) == Spelled(row, i, n)
    decreases n
  {
    hide Slice, Pow2;
    var s := 8 - n - i % 8;
    assert (i + n - 1) / 8 == i / 8 && 7 - (i + n - 1) % 8 == s;
    SliceStep(row[i / 8], n, s);
    if n == 1 {
      assert Slice(row[i / 8], 0, s + 1) == 0 by { EmptySlice(row[i / 8], s + 1); }
      assert Spelled(row, i, 0) == 0;
    } else {
      PackedIsSpelled(row, n - 1, i);
    }
  }

  lemma EmptySlice(v: nat, s: nat)
    ensures Slice(v, 0, s) == 0
  {}

  /** Three bytes mean the same colour as a 24-bit pixel, as a palette entry and as the
      low bytes of a plain 32-bit pixel. */
  lemma DepthsAgree(row24: Bytes, l24: Layout, x: nat, row32: Bytes, l32: Layout, y: nat, dib: Bytes, at: nat, n: nat, k: nat)
    requires l24.bpp == 24 && |row24| == Stride(l24) && x < l24.w && 3 * x + 3 <= |row24|
    requires l32.bpp == 32 && |row32| == Stride(l32) && y < l32.w && 4 * y + 4 <= |row32|
    requires l32.comp == BI_RGB && l32.rMask == 0xff_0000 && l32.gMask == 0xff00 && l32.bMask == 0xff
    requires k < n && at + 4 * n <= |dib|
    requires row24[3 * x..3 * x + 3] == row32[4 * y..4 * y + 3] == dib[at + 4 * k..at + 4 * k + 3]
    ensures PixelIn(row24, l24, x) == PaletteAt(dib, at, n)[k]
    ensures PixelIn(row32, l32, y).(a := 255) == PixelIn(row24, l24, x)
  {
    hide Stride, Channel, LE32, LE16, BitAt;
    var b: byte, g: byte, r: byte, a: byte := row32[4 * y], row32[4 * y + 1], row32[4 * y + 2], row32[4 * y + 3];
    var s24, s32, sp := row24[3 * x..3 * x + 3], row32[4 * y..4 * y + 3], dib[at + 4 * k..at + 4 * k + 3];
    assert s24[0] == s32[0] == sp[0] && s24[1] == s32[1] == sp[1] && s24[2] == s32[2] == sp[2];
    assert row32[4 * y..4 * y + 4] == [b, g, r, a];
    WordOf(row32, 4 * y);
    WordBytes(b, g, r, a);
    ByteChannels(LE32(row32, 4 * y));
  }

  /** A plain 16-bit pixel holds three five-bit numbers, each scaled from 0..31 to 0..255. */
  lemma FiveBitsEach(row: Bytes, l: Layout, x: nat)
    requires l.bpp == 16 && l.comp == BI_RGB && |row| == Stride(l) && x < l.w && 2 * x + 2 <= |row|
    ensures var v, c := LE16(row, 2 * x), PixelIn(row, l, x);
            && c.r == v / 1024 % 32 * 255 / 31 && c.g == v / 32 % 32 * 255 / 31 && c.b == v % 32 * 255 / 31 && c.a == 255
  {
    hide Stride, Channel, LE16, BitAt;
    FiveBitChannels(LE16(row, 2 * x));
  }

  lemma FiveBitChannels(v: nat)
    ensures Channel(v, 0x7c00) == v / 1024 % 32 * 255 / 31
    ensures Channel(v, 0x3e0) == v / 32 % 32 * 255 / 31
    ensures Channel(v, 0x1f) == v % 32 * 255 / 31
  {
    FiveBitMasks(v);
    hide Channel, Slice, Adjacent, Pow2;
    ChannelOfAdjacent(v, 5, 10);
    ChannelOfAdjacent(v, 5, 5);
    ChannelOfAdjacent(v, 5, 0);
  }

  lemma FiveBitMasks(v: nat)
    ensures Pow2(5) == 32
    ensures Adjacent(5, 10) == 0x7c00 && Adjacent(5, 5) == 0x3e0 && Adjacent(5, 0) == 0x1f
    ensures Slice(v, 5, 10) == v / 1024 % 32 && Slice(v, 5, 5) == v / 32 % 32 && Slice(v, 5, 0) == v % 32
  {
    assert Pow2(0) == 1 && Pow2(5) == 32 && Pow2(10) == 1024;
    hide Pow2;
  }

  // ---- Bottom-up and top-down ----

  /** The same bitmap with its height negated. */
  function Negated(dib: Bytes): (n: Bytes)
    ensures |n| == |dib|
  {
    if |dib| < 40 then dib else dib[..8] + Put32(Unsigned32(-Signed32(LE32(dib, 8)))) + dib[12..]
  }

  lemma NegatedBytes(dib: Bytes)
    requires |dib| >= 40
    ensures forall i | 0 <= i < |dib| && !(8 <= i < 12) :: Negated(dib)[i] == dib[i]
    ensures LE32(Negated(dib), 8) == Unsigned32(-Signed32(LE32(dib, 8)))
  {
    hide LE32, LE16, Put32, Unsigned32, Signed32;
    var u := Unsigned32(-Signed32(LE32(dib, 8)));
    LittleEndianRoundTrip(u);
    WordOf(Negated(dib), 8);
    assert Negated(dib)[8..12] == Put32(u);
  }

  /** Everything but the height reads the same. */
  lemma NegatedFields(dib: Bytes)
    requires |dib| >= 40
    ensures forall i | 12 <= i && i + 4 <= |dib| :: LE32(Negated(dib), i) == LE32(dib, i)
    ensures LE32(Negated(dib), 0) == LE32(dib, 0) && LE32(Negated(dib), 4) == LE32(dib, 4)
    ensures LE16(Negated(dib), 14) == LE16(dib, 14)
    ensures forall at, n | 40 <= at <= at + 4 * n <= |dib| :: PaletteAt(Negated(dib), at, n) == PaletteAt(dib, at, n)
    ensures var s, s' := Signed32(LE32(dib, 8)), Signed32(LE32(Negated(dib), 8));
            s' == -s || (s == s' && s < -MAX_SIDE)
  {
    NegatedBytes(dib);
    hide Negated;
  }

  function Turned(l: Layout): Layout {
    l.(topDown := !l.topDown)
  }

  lemma NegatedMasks(dib: Bytes, hdrSize: nat, comp: nat)
    requires |dib| >= 40 && 40 <= hdrSize <= |dib|
    ensures Masks(Negated(dib), hdrSize, comp) == Masks(dib, hdrSize, comp)
  {
    NegatedFields(dib);
    hide Negated, LE32, LE16, PaletteAt;
  }

  lemma MasksEnd(dib: Bytes, hdrSize: nat, comp: nat)
    requires 40 <= hdrSize <= |dib|
    ensures Masks(dib, hdrSize, comp).Ok? ==> 40 <= Masks(dib, hdrSize, comp).value.4 <= |dib|
  {}

  lemma NegatedRest(dib: Bytes, hdrSize: nat, w: nat, h: int, bpp: nat, comp: nat, clrUsed: nat)
    requires |dib| >= 40 && 40 <= hdrSize <= |dib| && h != 0
    ensures var d, n := ParseRest(dib, hdrSize, w, h, bpp, comp, clrUsed),
                        ParseRest(Negated(dib), hdrSize, w, -h, bpp, comp, clrUsed);
            n == if d.Ok? then Ok(Turned(d.value)) else d
  {
    hide Negated, LE32, LE16, PaletteAt, PaletteSize, Masks;
    NegatedFields(dib);
    NegatedMasks(dib, hdrSize, comp);
    MasksEnd(dib, hdrSize, comp);
  }

  lemma NegatedParses(dib: Bytes)
    ensures Parse(Negated(dib)) == if Parse(dib).Ok? then Ok(Turned(Parse(dib).value)) else Parse(dib)
  {
    if |dib| >= 40 {
      hide Negated, LE32, LE16, Signed32, ParseRest;
      NegatedFields(dib);
      var h, w := Signed32(LE32(dib, 8)), Signed32(LE32(dib, 4));
      if 40 <= LE32(dib, 0) <= |dib| && h != 0 && w >= 0 {
        NegatedRest(dib, LE32(dib, 0), w, h, LE16(dib, 14), LE32(dib, 16), LE32(dib, 32));
      }
    }
  }

  lemma RowMirrors(dib: Bytes, l: Layout, y: nat)
    requires |dib| >= 40 && Usable(dib, l) && l.offset >= 40 && y < l.h
    ensures Usable(Negated(dib), Turned(l))
    ensures Row(Negated(dib), Turned(l), y) == Row(dib, l, l.h - 1 - y)
  {
    hide Negated, LE32, Unsigned32, Stride, StartOf;
    NegatedBytes(dib);
    SameStride(l);
    var n := Stride(l);
    RowFits(SourceRow(Turned(l), y), l.h, n);
    SlicesAgree(dib, Negated(dib), l.offset + StartOf(SourceRow(Turned(l), y), n), n);
  }

  lemma SameStride(l: Layout)
    ensures Stride(Turned(l)) == Stride(l)
  {}

  lemma SlicesAgree(b: Bytes, b': Bytes, at: nat, n: nat)
    requires |b| == |b'| && 12 <= at <= at + n <= |b|
    requires forall i | 12 <= i < |b| :: b[i] == b'[i]
    ensures b[at..at + n] == b'[at..at + n]
  {}

  /** The place of pixel p in the image turned upside down. */
  function Flip(p: nat, w: nat, h: nat): (q: nat)
    requires p < w * h
    ensures q < w * h
  {
    Within(p, w, h);
    PlaceOf(ColOf(p, w), h - 1 - RowOf(p, w), w, h)
  }

  function PlaceOf(x: nat, y: nat, w: nat, h: nat): (p: nat)
    requires x < w && y < h
    ensures p < w * h && RowOf(p, w) == y && ColOf(p, w) == x
  {
    Place(x, y, w, h);
    StartOf(y, w) + x
  }

  lemma FlipTwice(p: nat, w: nat, h: nat)
    requires p < w * h
    ensures Flip(Flip(p, w, h), w, h) == p
  {
    hide StartOf, RowOf, ColOf;
    Within(p, w, h);
  }

  lemma AtMirrors(dib: Bytes, l: Layout, p: nat)
    requires |dib| >= 40 && Usable(dib, l) && l.offset >= 40 && Supported(l.bpp) && p < l.w * l.h
    ensures Usable(Negated(dib), Turned(l)) && At(Negated(dib), Turned(l), p) == At(dib, l, Flip(p, l.w, l.h))
  {
    hide Negated, Row, Usable, Stride, Channel, PackedIndex, LE32, LE16, StartOf, RowOf, ColOf, BitAt;
    Within(p, l.w, l.h);
    RowMirrors(dib, l, RowOf(p, l.w));
  }

  /** Two images of one size, each the other upside down. */
  predicate Mirrored(a: Image, b: Image) {
    && Sized(a) && Sized(b) && a.w == b.w && a.h == b.h
    && forall p: nat | p < a.w * a.h :: b.px[p] == a.px[Flip(p, a.w, a.h)]
  }

  lemma MirroredAlpha(dib: Bytes, l: Layout)
    requires |dib| >= 40 && Usable(dib, l) && l.offset >= 40 && Supported(l.bpp)
    ensures Usable(Negated(dib), Turned(l))
    ensures forall p: nat | p < l.w * l.h :: At(Negated(dib), Turned(l), p) == At(dib, l, Flip(p, l.w, l.h))
    ensures (forall p: nat | p < l.w * l.h :: At(Negated(dib), Turned(l), p).a == 0)
       <==> (forall p: nat | p < l.w * l.h :: At(dib, l, p).a == 0)
  {
    assert 0 < l.h;
    hide Negated, Usable, At, Flip;
    RowMirrors(dib, l, 0);
    forall p: nat | p < l.w * l.h
      ensures At(Negated(dib), Turned(l), p) == At(dib, l, Flip(p, l.w, l.h))
      ensures At(dib, l, p) == At(Negated(dib), Turned(l), Flip(p, l.w, l.h))
    {
      AtMirrors(dib, l, p);
      AtMirrors(dib, l, Flip(p, l.w, l.h));
      FlipTwice(p, l.w, l.h);
    }
  }

  /** For every byte string, negating the height changes nothing about whether or how it
      decodes except that the picture is upside down. */
  lemma NegatedHeightMirrors(dib: Bytes)
    ensures var d, n := Decode(dib), Decode(Negated(dib));
            if d.Err? then n == d else n.Ok? && Mirrored(d.value, n.value)
  {
    hide Negated, Usable, At, Flip, Parse, Stride, Decode;
    NegatedParses(dib);
    DecodeFaults(dib);
    DecodeFaults(Negated(dib));
    if Parse(dib).Ok? && Supported(Parse(dib).value.bpp) {
      var l := Parse(dib).value;
      ParsedIsUsable(dib);
      ParsedIsLong(dib);
      MirroredAlpha(dib, l);
      var anyAlpha := !forall p: nat | p < l.w * l.h :: At(dib, l, p).a == 0;
      DecodedPixels(dib, l, anyAlpha);
      DecodedPixels(Negated(dib), Turned(l), anyAlpha);
    }
  }

  lemma ParsedIsLong(dib: Bytes)
    ensures Parse(dib).Ok? ==> |dib| >= 40
  {}
}
