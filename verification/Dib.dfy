/** The Windows device-independent bitmap codec (internal/clipboard/image.go). Field
    layout as in section 2.2.2.3 (BitmapInfoHeader) of [MS-WMF]. */
module Dib {
  import opened Basics
  import opened Endian
  import opened Bits

  const BI_RGB := 0
  const BI_BITFIELDS := 3
  const MAX_SIDE := 32768

  /** One pixel, colour not premultiplied. */
  datatype Pixel = Pixel(r: byte, g: byte, b: byte, a: byte)

  /** Rows from top to bottom, pixels from left to right. */
  datatype Image = Image(w: nat, h: nat, px: seq<Pixel>)

  predicate Sized(img: Image) {
    |img.px| == img.w * img.h
  }

  datatype Fault = TooShort | BadHeader | MissingMasks | Compressed | ShortPalette | ShortPixels | UnsupportedDepth

  datatype Outcome<T> = Ok(value: T) | Err(fault: Fault)

  /** What a header says about the pixels behind it. */
  datatype Layout = Layout(w: nat, h: nat, topDown: bool, bpp: nat, comp: nat,
                           rMask: nat, gMask: nat, bMask: nat, aMask: nat, palette: seq<Pixel>, offset: nat)

  predicate Supported(bpp: nat) {
    bpp in {1, 4, 8, 16, 24, 32}
  }

  /** Bytes per row: whole 32-bit words. */
  function Stride(l: Layout): nat {
    (l.w * l.bpp + 31) / 32 * 4
  }

  // ---- The header ----

  function PaletteAt(dib: Bytes, offset: nat, n: nat): (p: seq<Pixel>)
    requires offset + 4 * n <= |dib|
    ensures |p| == n
  {
    seq(n, i requires 0 <= i < n => Pixel(dib[offset + 4 * i + 2], dib[offset + 4 * i + 1], dib[offset + 4 * i], 255))
  }

  /** The colour masks and where they end. */
  function Masks(dib: Bytes, hdrSize: nat, comp: nat): Outcome<(nat, nat, nat, nat, nat)>
    requires 40 <= hdrSize <= |dib|
  {
    if comp == BI_BITFIELDS then
      if hdrSize >= 52 then
        Ok((LE32(dib, 40), LE32(dib, 44), LE32(dib, 48), if hdrSize >= 56 then LE32(dib, 52) else 0, hdrSize))
      else if |dib| < hdrSize + 12 then Err(MissingMasks)
      else Ok((LE32(dib, hdrSize), LE32(dib, hdrSize + 4), LE32(dib, hdrSize + 8), 0, hdrSize + 12))
    else if comp != BI_RGB then Err(Compressed)
    else Ok((0xff_0000, 0xff00, 0xff, 0, hdrSize))
  }

  function PaletteSize(bpp: nat, clrUsed: nat): nat {
    if bpp > 8 then 0 else if clrUsed == 0 then Pow2(bpp) else clrUsed
  }

  /** Masks, palette and pixels behind an acceptable fixed header. */
  function ParseRest(dib: Bytes, hdrSize: nat, w: nat, h: int, bpp: nat, comp: nat, clrUsed: nat): Outcome<Layout>
    requires 40 <= hdrSize <= |dib|
  {
    var masks := Masks(dib, hdrSize, comp);
    if masks.Err? then Err(masks.fault)
    else
      var (r, g, b, a, offset) := masks.value;
      var n := PaletteSize(bpp, clrUsed);
      if |dib| < offset + 4 * n then Err(ShortPalette)
      else
        var l := Layout(w, if h < 0 then -h else h, h < 0, bpp, comp, r, g, b, a, PaletteAt(dib, offset, n), offset + 4 * n);
        if |dib| < l.offset + Stride(l) * l.h then Err(ShortPixels) else Ok(l)
  }

  function Parse(dib: Bytes): Outcome<Layout> {
    if |dib| < 40 then Err(TooShort)
    else
      var hdrSize, w, h := LE32(dib, 0), Signed32(LE32(dib, 4)), Signed32(LE32(dib, 8));
      if hdrSize < 40 || hdrSize > |dib| || w <= 0 || h == 0 || w > MAX_SIDE || h > MAX_SIDE || h < -MAX_SIDE then Err(BadHeader)
      else ParseRest(dib, hdrSize, w, h, LE16(dib, 14), LE32(dib, 16), LE32(dib, 32))
  }

  /** What a successful parse guarantees the pixel loop. */
  predicate Usable(dib: Bytes, l: Layout) {
    && 1 <= l.w <= MAX_SIDE && 1 <= l.h <= MAX_SIDE && l.offset + Stride(l) * l.h <= |dib|
    && l.rMask < TWO_32 && l.gMask < TWO_32 && l.bMask < TWO_32 && l.aMask < TWO_32
  }

  lemma ParsedIsUsable(dib: Bytes)
    ensures Parse(dib).Ok? ==> Usable(dib, Parse(dib).value) && Parse(dib).value.offset >= 40
  {
    hide PaletteAt, Stride;
  }

  method ReadPalette(dib: Bytes, offset: nat, n: nat) returns (palette: seq<Pixel>)
    requires offset + 4 * n <= |dib|
    ensures palette == PaletteAt(dib, offset, n)
  {
    palette := [];
    for i := 0 to n
      invariant |palette| == i
      invariant forall k | 0 <= k < i :: palette[k] == PaletteAt(dib, offset, n)[k]
    {
      var at := offset + 4 * i;
      palette := palette + [Pixel(dib[at + 2], dib[at + 1], dib[at], 255)];
    }
  }

  method ReadHeader(dib: Bytes) returns (r: Outcome<Layout>)
    ensures r == Parse(dib)
  {
    hide LE32, LE16, Signed32, PaletteAt, Pow2, Stride;
    if |dib| < 40 { return Err(TooShort); }
    var hdrSize, w, h := LE32(dib, 0), Signed32(LE32(dib, 4)), Signed32(LE32(dib, 8));
    var bpp, comp, clrUsed := LE16(dib, 14), LE32(dib, 16), LE32(dib, 32);
    if hdrSize < 40 || hdrSize > |dib| || w <= 0 || h == 0 || w > MAX_SIDE || h > MAX_SIDE || h < -MAX_SIDE {
      return Err(BadHeader);
    }
    var topDown := h < 0;
    if topDown { h := -h; }
    var offset := hdrSize;
    var rMask, gMask, bMask, aMask := 0xff_0000, 0xff00, 0xff, 0;
    if comp == BI_BITFIELDS {
      if hdrSize >= 52 {
        rMask, gMask, bMask := LE32(dib, 40), LE32(dib, 44), LE32(dib, 48);
        if hdrSize >= 56 { aMask := LE32(dib, 52); }
      } else {
        if |dib| < offset + 12 { return Err(MissingMasks); }
        rMask, gMask, bMask := LE32(dib, offset), LE32(dib, offset + 4), LE32(dib, offset + 8);
        offset := offset + 12;
      }
    } else if comp != BI_RGB {
      return Err(Compressed);
    }
    var palette := [];
    if bpp <= 8 {
      var n := clrUsed;
      if n == 0 { n := Pow2(bpp); }
      if |dib| < offset + 4 * n { return Err(ShortPalette); }
      palette := ReadPalette(dib, offset, n);
      offset := offset + 4 * n;
    }
    var l := Layout(w, h, topDown, bpp, comp, rMask, gMask, bMask, aMask, palette, offset);
    if |dib| < offset + Stride(l) * h { return Err(ShortPixels); }
    r := Ok(l);
  }

  // ---- Pixels ----

  /** The stored row that holds image row y. */
  function SourceRow(l: Layout, y: nat): nat
    requires y < l.h
  {
    if l.topDown then y else l.h - 1 - y
  }

  lemma RowFits(s: nat, h: nat, stride: nat)
    requires s < h
    ensures StartOf(s, stride) + stride <= stride * h
  {
    MulMonotone(s + 1, h, stride);
  }

  function Row(dib: Bytes, l: Layout, y: nat): (row: Bytes)
    requires Usable(dib, l) && y < l.h
    ensures |row| == Stride(l)
  {
    RowFits(SourceRow(l, y), l.h, Stride(l));
    var at := l.offset + StartOf(SourceRow(l, y), Stride(l));
    dib[at..at + Stride(l)]
  }

  /** Where the bits of pixel x start. */
  function BitAt(x: nat, bpp: nat): nat {
    x * bpp
  }

  /** The bits of pixel x lie within its row, and if packed, within one byte. */
  lemma PixelFits(l: Layout, x: nat)
    requires x < l.w
    ensures BitAt(x, l.bpp) + l.bpp <= 8 * Stride(l)
    ensures l.bpp == 32 ==> 4 * x + 4 <= Stride(l)
    ensures l.bpp == 24 ==> 3 * x + 3 <= Stride(l)
    ensures l.bpp == 16 ==> 2 * x + 2 <= Stride(l)
    ensures l.bpp in {1, 4, 8} ==> BitAt(x, l.bpp) % 8 + l.bpp <= 8
  {
    MulMonotone(x + 1, l.w, l.bpp);
    var n := l.w * l.bpp;
    assert 8 * Stride(l) == (n + 31) / 32 * 32 >= n;
    if l.bpp == 4 { assert BitAt(x, 4) == 4 * x; }
    if l.bpp == 8 { assert BitAt(x, 8) == 8 * x; }
  }

  function PixelIn(row: Bytes, l: Layout, x: nat): Pixel
    requires |row| == Stride(l) && Supported(l.bpp) && x < l.w
  {
    PixelFits(l, x);
    if l.bpp == 32 then
      var v := LE32(row, 4 * x);
      Pixel(Channel(v, l.rMask), Channel(v, l.gMask), Channel(v, l.bMask),
            if l.comp == BI_RGB then v / 0x100_0000 else if l.aMask != 0 then Channel(v, l.aMask) else 255)
    else if l.bpp == 24 then Pixel(row[3 * x + 2], row[3 * x + 1], row[3 * x], 255)
    else if l.bpp == 16 then
      var v := LE16(row, 2 * x);
      if l.comp == BI_RGB then Pixel(Channel(v, 0x7c00), Channel(v, 0x3e0), Channel(v, 0x1f), 255)
      else Pixel(Channel(v, l.rMask), Channel(v, l.gMask), Channel(v, l.bMask), 255)
    else
      var idx := PackedIndex(row, l.bpp, BitAt(x, l.bpp));
      if idx < |l.palette| then l.palette[idx] else Pixel(0, 0, 0, 0)
  }

  /** The palette index of a packed pixel, most significant bits first within a byte. */
  function PackedIndex(row: Bytes, bpp: nat, bit: nat): (idx: nat)
    requires bit + bpp <= 8 * |row| && bpp > 0 && bit % 8 + bpp <= 8
    ensures idx < Pow2(bpp)
  {
    Slice(row[bit / 8], bpp, 8 - bpp - bit % 8)
  }

  function Raster(dib: Bytes, l: Layout): (px: seq<Pixel>)
    requires Usable(dib, l) && Supported(l.bpp)
    ensures |px| == l.w * l.h
  {
    seq(l.w * l.h, p requires 0 <= p < l.w * l.h => At(dib, l, p))
  }

  /** Where row y starts in an image of width w, and the row and column of pixel p. */
  function StartOf(y: nat, w: nat): nat {
    y * w
  }

  function RowOf(p: nat, w: nat): nat
    requires w > 0
  {
    p / w
  }

  function ColOf(p: nat, w: nat): nat
    requires w > 0
  {
    p % w
  }

  lemma Within(p: nat, w: nat, h: nat)
    requires p < w * h
    ensures w > 0 && RowOf(p, w) < h && ColOf(p, w) < w && p == StartOf(RowOf(p, w), w) + ColOf(p, w)
  {
    if p / w >= h { MulMonotone(h, p / w, w); }
  }

  lemma Place(x: nat, y: nat, w: nat, h: nat)
    requires x < w && y < h
    ensures StartOf(y, w) + x < w * h
    ensures RowOf(StartOf(y, w) + x, w) == y && ColOf(StartOf(y, w) + x, w) == x
  {
    MulMonotone(y + 1, h, w);
    DivModUnique(y * w + x, w, y, x);
  }

  /** Pixel number p, counting along the rows of the image. */
  function At(dib: Bytes, l: Layout, p: nat): Pixel
    requires Usable(dib, l) && Supported(l.bpp) && p < l.w * l.h
  {
    Within(p, l.w, l.h);
    PixelIn(Row(dib, l, RowOf(p, l.w)), l, ColOf(p, l.w))
  }

  predicate AllClear(px: seq<Pixel>) {
    forall p | 0 <= p < |px| :: px[p].a == 0
  }

  function Opaque(px: seq<Pixel>): (o: seq<Pixel>)
    ensures |o| == |px|
  {
    seq(|px|, p requires 0 <= p < |px| => px[p].(a := 255))
  }

  /** What DIBToImage makes of a byte string. A 32-bit bitmap whose alpha bytes are all
      zero is taken to be opaque. */
  function Decode(dib: Bytes): (r: Outcome<Image>)
    ensures r.Ok? ==> 1 <= r.value.w <= MAX_SIDE && 1 <= r.value.h <= MAX_SIDE && Sized(r.value)
  {
    var parsed := Parse(dib);
    if parsed.Err? then Err(parsed.fault)
    else
      var l := parsed.value;
      ParsedIsUsable(dib);
      if !Supported(l.bpp) then Err(UnsupportedDepth)
      else
        var raw := Raster(dib, l);
        Ok(Image(l.w, l.h, if l.bpp == 32 && AllClear(raw) then Opaque(raw) else raw))
  }

  // ---- The pixel loop ----

  method ReadPixel(row: Bytes, l: Layout, x: nat) returns (c: Pixel)
    requires |row| == Stride(l) && Supported(l.bpp) && x < l.w
    requires l.rMask < TWO_32 && l.gMask < TWO_32 && l.bMask < TWO_32 && l.aMask < TWO_32
    ensures c == PixelIn(row, l, x)
  {
    PixelFits(l, x);
    hide Channel, LE32, LE16, Stride, BitAt, Low, Quotient, Pow2;
    c := Pixel(0, 0, 0, 0);
    if l.bpp == 32 || l.bpp == 16 {
      var v, rMask, gMask, bMask := 0, l.rMask, l.gMask, l.bMask;
      if l.bpp == 32 { v := LE32(row, x * 4); } else { v := LE16(row, x * 2); }
      if l.bpp == 16 && l.comp == BI_RGB { rMask, gMask, bMask := 0x7c00, 0x3e0, 0x1f; }
      var r := ComputeChannel(v, rMask);
      var g := ComputeChannel(v, gMask);
      var b := ComputeChannel(v, bMask);
      c := Pixel(r, g, b, 255);
      if l.bpp == 32 && l.comp == BI_RGB {
        c := c.(a := v / 0x100_0000);
      } else if l.bpp == 32 && l.aMask != 0 {
        var a := ComputeChannel(v, l.aMask);
        c := c.(a := a);
      }
    } else if l.bpp == 24 {
      c := Pixel(row[x * 3 + 2], row[x * 3 + 1], row[x * 3], 255);
    } else {
      var bit := BitAt(x, l.bpp);
      var idx := Low(Quotient(row[bit / 8], Pow2(8 - l.bpp - bit % 8)), l.bpp);
      if idx < |l.palette| { c := l.palette[idx]; }
    }
  }

  /** Pixel p of a buffer of interleaved red, green, blue and alpha bytes. */
  function Stored(pix: array<byte>, p: nat): Pixel
    requires 4 * p + 4 <= pix.Length
    reads pix
  {
    Pixel(pix[4 * p], pix[4 * p + 1], pix[4 * p + 2], pix[4 * p + 3])
  }

  method SetPixel(pix: array<byte>, p: nat, c: Pixel)
    requires 4 * p + 4 <= pix.Length
    modifies pix
    ensures Stored(pix, p) == c
    ensures forall q: nat | q != p && 4 * q + 4 <= pix.Length :: Stored(pix, q) == old(Stored(pix, q))
  {
    pix[4 * p], pix[4 * p + 1], pix[4 * p + 2], pix[4 * p + 3] := c.r, c.g, c.b, c.a;
  }

  /** Make every pixel opaque. */
  method FillAlpha(pix: array<byte>)
    requires pix.Length % 4 == 0
    modifies pix
    ensures forall p: nat | 4 * p + 4 <= pix.Length :: Stored(pix, p) == old(Stored(pix, p)).(a := 255)
  {
    var i, k := 3, 0;
    while i < pix.Length
      invariant i == 4 * k + 3 && 0 <= k <= pix.Length / 4
      invariant forall p: nat | p < k :: Stored(pix, p) == old(Stored(pix, p)).(a := 255)
      invariant forall p: nat | k <= p && 4 * p + 4 <= pix.Length :: Stored(pix, p) == old(Stored(pix, p))
      decreases pix.Length - i
    {
      pix[i] := 255;
      i, k := i + 4, k + 1;
    }
  }

  lemma AtPlace(dib: Bytes, l: Layout, x: nat, y: nat)
    requires Usable(dib, l) && Supported(l.bpp) && x < l.w && y < l.h
    ensures StartOf(y, l.w) + x < l.w * l.h && At(dib, l, StartOf(y, l.w) + x) == PixelIn(Row(dib, l, y), l, x)
  {
    Place(x, y, l.w, l.h);
    hide PixelIn, Row, StartOf, RowOf, ColOf, Stride;
  }

  lemma StartGrows(y: nat, w: nat, h: nat)
    requires y < h
    ensures StartOf(y + 1, w) == StartOf(y, w) + w <= w * h && StartOf(0, w) == 0 && StartOf(h, w) == w * h
  {
    MulMonotone(y + 1, h, w);
  }

  /** The first k pixels are in place, and `anyAlpha` says whether one has alpha. */
  ghost predicate Filled(dib: Bytes, l: Layout, pix: array<byte>, anyAlpha: bool, k: nat)
    requires Usable(dib, l) && Supported(l.bpp) && k <= l.w * l.h && pix.Length == 4 * (l.w * l.h)
    reads pix
  {
    && (forall p: nat | p < k :: Stored(pix, p) == At(dib, l, p))
    && (l.bpp == 32 ==> (!anyAlpha <==> forall p: nat | p < k :: At(dib, l, p).a == 0))
  }

  lemma FilledPixels(dib: Bytes, l: Layout, pix: array<byte>, anyAlpha: bool)
    requires Usable(dib, l) && Supported(l.bpp) && pix.Length == 4 * (l.w * l.h) && Filled(dib, l, pix, anyAlpha, l.w * l.h)
    ensures forall p: nat | p < l.w * l.h :: Stored(pix, p) == At(dib, l, p)
    ensures l.bpp == 32 ==> (!anyAlpha <==> forall p: nat | p < l.w * l.h :: At(dib, l, p).a == 0)
  {
    hide Stride, At;
  }

  /** The pixel loop; it gives up at the first pixel if the depth is unknown. */
  method ReadPixels(dib: Bytes, l: Layout, pix: array<byte>) returns (supported: bool, anyAlpha: bool)
    requires Usable(dib, l) && pix.Length == 4 * (l.w * l.h)
    modifies pix
    ensures supported == Supported(l.bpp)
    ensures supported ==> Filled(dib, l, pix, anyAlpha, l.w * l.h)
  {
    StartGrows(0, l.w, l.h);
    hide Stride, PixelIn, At, Row, StartOf, Usable, Supported;
    supported, anyAlpha := true, false;
    var y := 0;
    while y < l.h
      invariant 0 <= y <= l.h && (y > 0 ==> Supported(l.bpp)) && StartOf(y, l.w) <= l.w * l.h
      invariant Supported(l.bpp) ==> Filled(dib, l, pix, anyAlpha, StartOf(y, l.w))
    {
      var row := Row(dib, l, y);
      StartGrows(y, l.w, l.h);
      var x := 0;
      while x < l.w
        invariant 0 <= x <= l.w && (y > 0 || x > 0 ==> Supported(l.bpp))
        invariant Supported(l.bpp) ==> Filled(dib, l, pix, anyAlpha, StartOf(y, l.w) + x)
      {
        if !Supported(l.bpp) { return false, anyAlpha; }
        AtPlace(dib, l, x, y);
        var c := ReadPixel(row, l, x);
        if l.bpp == 32 && c.a != 0 { anyAlpha := true; }
        SetPixel(pix, StartOf(y, l.w) + x, c);
        x := x + 1;
      }
      y := y + 1;
    }
  }

  /** Decode pixel by pixel, given whether any pixel has alpha. */
  lemma DecodedPixels(dib: Bytes, l: Layout, anyAlpha: bool)
    requires Parse(dib) == Ok(l) && Usable(dib, l) && Supported(l.bpp)
    requires l.bpp == 32 ==> (!anyAlpha <==> forall p: nat | p < l.w * l.h :: At(dib, l, p).a == 0)
    ensures var d := Decode(dib);
            && d.Ok? && d.value.w == l.w && d.value.h == l.h && |d.value.px| == l.w * l.h
            && forall p: nat | p < l.w * l.h ::
              d.value.px[p] == if l.bpp == 32 && !anyAlpha then At(dib, l, p).(a := 255) else At(dib, l, p)
  {
    hide Parse, At, Stride;
    var raw := Raster(dib, l);
    assert forall p: nat | p < l.w * l.h :: raw[p] == At(dib, l, p);
    assert l.bpp == 32 ==> (!anyAlpha <==> AllClear(raw));
  }

  lemma DecodeFaults(dib: Bytes)
    ensures Parse(dib).Err? ==> Decode(dib) == Err(Parse(dib).fault)
    ensures Parse(dib).Ok? && !Supported(Parse(dib).value.bpp) ==> Decode(dib) == Err(UnsupportedDepth)
  {
    hide Parse;
  }

  /** The decoder. Never an index out of range, for any byte string. */
  method DIBToImage(dib: Bytes) returns (r: Outcome<(nat, nat, array<byte>)>)
    ensures match Decode(dib)
            case Err(fault) => r == Err(fault)
            case Ok(img) =>
              && r.Ok? && r.value.0 == img.w && r.value.1 == img.h && fresh(r.value.2)
              && r.value.2.Length == 4 * |img.px|
              && forall p: nat | p < |img.px| :: Stored(r.value.2, p) == img.px[p]
  {
    hide Parse, Stride, At, Decode, Filled;
    var parsed := ReadHeader(dib);
    DecodeFaults(dib);
    if parsed.Err? { return Err(parsed.fault); }
    var l := parsed.value;
    ParsedIsUsable(dib);
    var pix := new byte[4 * (l.w * l.h)];
    var supported, anyAlpha := ReadPixels(dib, l, pix);
    if !supported { return Err(UnsupportedDepth); }
    FilledPixels(dib, l, pix, anyAlpha);
    DecodedPixels(dib, l, anyAlpha);
    if l.bpp == 32 && !anyAlpha { FillAlpha(pix); }
    r := Ok((l.w, l.h, pix));
  }
}
