/** Messages as bytes and frames on a stream (internal/protocol/protocol.go, and the
    Android implementation of the same format in Protocol.kt). */
module Framing {
  import opened Basics
  import opened Endian

  const MAX_FRAME := 40 * 0x10_0000
  const SLACK := 64

  /** The coder of message headers, every field of a message but its body. Its inner
      workings are not modelled, only that it loses nothing. */
  datatype Codec<!H> = Codec(enc: H -> Bytes, dec: Bytes -> Option<H>, kind: H -> string)

  ghost predicate Lossless<H(!new)>(c: Codec<H>) {
    forall h :: c.dec(c.enc(h)) == Some(h)
  }

  /** A message; a nil body is None. */
  datatype Packet<H> = Packet(header: H, body: Option<Bytes>)

  /** A missing body and an empty one are written the same way. */
  function Carried<H>(m: Packet<H>): Packet<H> {
    if m.body == Some([]) then m.(body := None) else m
  }

  function BodyOf<H>(m: Packet<H>): Bytes {
    if m.body.Some? then m.body.value else []
  }

  // ---- One message ----

  function Encode<H>(c: Codec<H>, m: Packet<H>): Bytes {
    BigEndian(|c.enc(m.header)| % TWO_32, 4) + c.enc(m.header) + BodyOf(m)
  }

  /** Fill a buffer of the right size with length, header and body. */
  method EncodeMessage<H>(c: Codec<H>, m: Packet<H>) returns (out: array<byte>)
    ensures fresh(out) && out[..] == Encode(c, m)
  {
    var h, body := c.enc(m.header), BodyOf(m);
    out := new byte[4 + |h| + |body|](_ => 0);
    var prefix := BigEndian(|h| % TWO_32, 4);
    var i := 0;
    while i < 4
      invariant 0 <= i <= 4
      invariant forall k | 0 <= k < i :: out[k] == prefix[k]
    {
      out[i] := prefix[i];
      i := i + 1;
    }
    i := 0;
    while i < |h|
      invariant 0 <= i <= |h|
      invariant forall k | 0 <= k < 4 :: out[k] == prefix[k]
      invariant forall k | 0 <= k < i :: out[4 + k] == h[k]
    {
      out[4 + i] := h[i];
      i := i + 1;
    }
    i := 0;
    while i < |body|
      invariant 0 <= i <= |body|
      invariant forall k | 0 <= k < 4 :: out[k] == prefix[k]
      invariant forall k | 0 <= k < |h| :: out[4 + k] == h[k]
      invariant forall k | 0 <= k < i :: out[4 + |h| + k] == body[k]
    {
      out[4 + |h| + i] := body[i];
      i := i + 1;
    }
    assert out[..] == prefix + h + body;
  }

  datatype Verdict<H> = Refused | Untyped | Header(value: H)

  /** What a decoder makes of the bytes of a header. */
  function Judge<H>(c: Codec<H>, h: Bytes): Verdict<H> {
    var d := c.dec(h);
    if d.None? then Refused else if c.kind(d.value) == "" then Untyped else Header(d.value)
  }

  datatype Decoded<H> = Ok(packet: Packet<H>) | ShortFrame | BadLength | BadHeader | NoType | Crash

  /** The message whose header is the n bytes after the prefix. */
  function Parse<H>(c: Codec<H>, b: Bytes, n: nat): Decoded<H>
    requires 4 + n <= |b|
  {
    match Judge(c, b[4..4 + n])
    case Refused => BadHeader
    case Untyped => NoType
    case Header(h) => Ok(Packet(h, if |b| > 4 + n then Some(b[4 + n..]) else None))
  }

  /** Go's Decode. The end of the header, 4 + n, is a 32-bit sum: should it wrap, slicing
      the buffer panics. */
  function Decode<H>(c: Codec<H>, b: Bytes): Decoded<H> {
    if |b| < 4 then ShortFrame
    else
      var n := FromBigEndian(b[..4]);
      if n > |b| - 4 then BadLength
      else if 4 + n >= TWO_32 then Crash
      else Parse(c, b, n)
  }

  /** Kotlin's decode, which reads the prefix as a signed integer. */
  function DecodeKotlin<H>(c: Codec<H>, b: Bytes): Decoded<H> {
    if |b| < 4 then ShortFrame
    else
      FourBytes(b[..4]);
      var n := Signed32(FromBigEndian(b[..4]));
      if n < 0 || n > |b| - 4 then BadLength else Parse(c, b, n)
  }

  lemma FourBytes(b: Bytes)
    requires |b| == 4
    ensures FromBigEndian(b) < TWO_32
  {
    FromBigEndianBound(b);
    Pow256Values();
  }

  /** On every buffer a JVM array can hold, the two decoders cut off the same header and
      the same body or reject the length alike, so they give the same result exactly when
      their two header coders judge the same bytes alike. */
  lemma DecodersAgree<H>(go: Codec<H>, kt: Codec<H>, b: Bytes)
    requires |b| < TWO_31
    ensures var bad := |b| < 4 || FromBigEndian(b[..4]) > |b| - 4;
            && (bad ==> Decode(go, b) == DecodeKotlin(kt, b))
            && (!bad ==> (Decode(go, b) == DecodeKotlin(kt, b) <==>
                          Judge(go, b[4..4 + FromBigEndian(b[..4])]) == Judge(kt, b[4..4 + FromBigEndian(b[..4])])))
  {
    if |b| >= 4 { FourBytes(b[..4]); }
  }

  /** Only a prefix within four of 2^32 makes Decode panic, and no frame is that long. */
  lemma WhenDecodeCrashes<H>(c: Codec<H>, b: Bytes)
    ensures Decode(c, b) == Crash <==> |b| >= 4 && TWO_32 - 4 <= FromBigEndian(b[..4]) <= |b| - 4
    ensures |b| <= MAX_FRAME + SLACK ==> Decode(c, b) != Crash
  {}

  lemma EncodeParts<H>(c: Codec<H>, m: Packet<H>)
    requires |c.enc(m.header)| < TWO_32
    ensures var b := Encode(c, m);
            && |b| == 4 + |c.enc(m.header)| + |BodyOf(m)|
            && FromBigEndian(b[..4]) == |c.enc(m.header)|
            && b[4..4 + |c.enc(m.header)|] == c.enc(m.header)
            && b[4 + |c.enc(m.header)|..] == BodyOf(m)
  {
    hide BigEndian, FromBigEndian, Pow256;
    var n := |c.enc(m.header)|;
    Pow256Values();
    BigEndianRoundTrip(n, 4);
    var b, h, body := Encode(c, m), c.enc(m.header), BodyOf(m);
    assert b == BigEndian(n, 4) + h + body;
    assert b[..4] == BigEndian(n, 4) && b[4..4 + n] == h && b[4 + n..] == body;
  }

  /** A message that goes out comes back, except that an empty body comes back as none. */
  lemma MessageRoundTrip<H(!new)>(c: Codec<H>, m: Packet<H>)
    requires Lossless(c) && c.kind(m.header) != "" && |c.enc(m.header)| < TWO_32 - 4
    ensures Decode(c, Encode(c, m)) == Ok(Carried(m))
  {
    EncodeParts(c, m);
    hide BigEndian, FromBigEndian, Encode;
    assert c.dec(c.enc(m.header)) == Some(m.header);
  }

  /** A buffer decodes if and only if it is a length in four bytes, a header of that length
      that the coder reads and that names a type, and anything behind; and then that is the
      message. */
  lemma DecodesExactlyMessages<H>(c: Codec<H>, b: Bytes, h: Bytes, body: Bytes)
    ensures Decode(c, b).Ok? ==> exists h, body :: Spells(c, b, h, body)
    ensures Spells(c, b, h, body) ==> Decode(c, b) == Ok(Packet(c.dec(h).value, if body == [] then None else Some(body)))
  {
    if Decode(c, b).Ok? {
      var n := FromBigEndian(b[..4]);
      FourBytes(b[..4]);
      FromBigEndianBack(b[..4]);
      hide BigEndian, FromBigEndian;
      assert b == b[..4] + b[4..4 + n] + b[4 + n..];
      assert Spells(c, b, b[4..4 + n], b[4 + n..]);
    }
    if Spells(c, b, h, body) {
      Pow256Values();
      BigEndianRoundTrip(|h|, 4);
      hide BigEndian, FromBigEndian;
      assert b[..4] == BigEndian(|h|, 4) && b[4..4 + |h|] == h && b[4 + |h|..] == body;
    }
  }

  predicate Spells<H>(c: Codec<H>, b: Bytes, h: Bytes, body: Bytes) {
    && |h| < TWO_32 - 4 && b == BigEndian(|h|, 4) + h + body
    && c.dec(h).Some? && c.kind(c.dec(h).value) != ""
  }

  /** Why a buffer does not decode. */
  lemma WhyDecodeFails<H>(c: Codec<H>, b: Bytes)
    requires |b| < TWO_32
    ensures Decode(c, b) == ShortFrame <==> |b| < 4
    ensures Decode(c, b) == BadLength <==> |b| >= 4 && FromBigEndian(b[..4]) > |b| - 4
    ensures Decode(c, b) == BadHeader <==> |b| >= 4 && FromBigEndian(b[..4]) <= |b| - 4 && c.dec(b[4..4 + FromBigEndian(b[..4])]).None?
  {}

  /** What one program writes the other reads, for two coders that understand each other. */
  lemma MessageCrosses<H(!new)>(go: Codec<H>, kt: Codec<H>, m: Packet<H>)
    requires (forall h :: kt.dec(go.enc(h)) == Some(h)) && kt.kind(m.header) != "" && |Encode(go, m)| < TWO_31
    ensures DecodeKotlin(kt, Encode(go, m)) == Ok(Carried(m))
  {
    EncodeParts(go, m);
    hide BigEndian, FromBigEndian, Encode;
    FourBytes(Encode(go, m)[..4]);
    assert kt.dec(go.enc(m.header)) == Some(m.header);
  }

  // ---- Frames on a stream ----

  predicate Fits(payload: Bytes) {
    |payload| <= MAX_FRAME + SLACK
  }

  function FrameOf(payload: Bytes): Bytes
    requires Fits(payload)
  {
    BigEndian(|payload|, 4) + payload
  }

  /** What a write leaves on the stream: nothing if the payload is too large. */
  function Written(payload: Bytes): Bytes {
    if Fits(payload) then FrameOf(payload) else []
  }

  datatype Read = Frame(payload: Bytes, rest: Bytes) | TooLarge | Cut

  function ReadOne(stream: Bytes): (r: Read)
    ensures r.Frame? ==> |r.rest| < |stream|
  {
    if |stream| < 4 then Cut
    else
      var n := FromBigEndian(stream[..4]);
      if n > MAX_FRAME + SLACK then TooLarge
      else if |stream| - 4 < n then Cut
      else Frame(stream[4..4 + n], stream[4 + n..])
  }

  /** Go and Kotlin accept the same frame lengths. */
  lemma FrameLengthsAgree(n: nat)
    requires n < TWO_32
    ensures n > MAX_FRAME + SLACK <==> Signed32(n) < 0 || Signed32(n) > MAX_FRAME + SLACK
    ensures n <= MAX_FRAME + SLACK ==> Signed32(n) == n
  {}

  /** A byte stream one end writes and the other reads. */
  class Pipe {
    var content: Bytes

    constructor ()
      ensures content == []
    {
      content := [];
    }

    method WriteFrame(payload: Bytes) returns (ok: bool)
      modifies this
      ensures ok == Fits(payload) && content == old(content) + Written(payload)
    {
      if |payload| > MAX_FRAME + SLACK { return false; }
      content := content + BigEndian(|payload| % TWO_32, 4);
      content := content + payload;
      assert content == old(content) + FrameOf(payload);
      ok := true;
    }

    /** Read the length prefix, then that many bytes. */
    method ReadFrame() returns (payload: Option<Bytes>)
      modifies this
      ensures match ReadOne(old(content))
              case Frame(p, rest) => payload == Some(p) && content == rest
              case _ => payload.None?
    {
      if |content| < 4 { return None; }
      var n := FromBigEndian(content[..4]);
      if n > MAX_FRAME + SLACK { return None; }
      content := content[4..];
      if |content| < n { return None; }
      assert content[..n] == old(content)[4..4 + n] && content[n..] == old(content)[4 + n..];
      payload, content := Some(content[..n]), content[n..];
    }
  }

  function WriteAll(payloads: seq<Bytes>): Bytes {
    if payloads == [] then [] else Written(payloads[0]) + WriteAll(payloads[1..])
  }

  function ReadAll(stream: Bytes): seq<Bytes>
    decreases |stream|
  {
    match ReadOne(stream)
    case Frame(p, rest) => [p] + ReadAll(rest)
    case _ => []
  }

  function Accepted(payloads: seq<Bytes>): seq<Bytes> {
    if payloads == [] then []
    else (if Fits(payloads[0]) then [payloads[0]] else []) + Accepted(payloads[1..])
  }

  lemma FirstFrame(p: Bytes, rest: Bytes)
    requires Fits(p)
    ensures ReadOne(FrameOf(p) + rest) == Frame(p, rest)
  {
    Pow256Values();
    BigEndianRoundTrip(|p|, 4);
    hide BigEndian, FromBigEndian;
    var s := FrameOf(p) + rest;
    assert s[..4] == BigEndian(|p|, 4);
    assert s[4..4 + |p|] == p && s[4 + |p|..] == rest;
  }

  lemma PartialFrame(p: Bytes, cut: Bytes)
    requires Fits(p) && cut < FrameOf(p)
    ensures ReadOne(cut) == Cut
  {
    Pow256Values();
    BigEndianRoundTrip(|p|, 4);
    hide BigEndian, FromBigEndian;
    if |cut| >= 4 { assert cut[..4] == FrameOf(p)[..4] == BigEndian(|p|, 4); }
  }

  /** However early the stream ends, what is read is a prefix of what was written and
      accepted, frame for frame; of a whole stream, all of it. */
  lemma {:induction false} StreamPrefix(payloads: seq<Bytes>, cut: Bytes)
    requires cut <= WriteAll(payloads)
    ensures ReadAll(cut) <= Accepted(payloads)
    ensures cut == WriteAll(payloads) ==> ReadAll(cut) == Accepted(payloads)
    decreases |payloads|
  {
    if payloads != [] {
      var p, rest := payloads[0], payloads[1..];
      if !Fits(p) {
        assert WriteAll(payloads) == WriteAll(rest);
        StreamPrefix(rest, cut);
      } else {
        var f := FrameOf(p);
        var whole := f + WriteAll(rest);
        if |cut| >= |f| {
          var tail := cut[|f|..];
          assert whole[|f|..] == WriteAll(rest);
          assert tail <= WriteAll(rest) && cut == f + tail;
          FirstFrame(p, tail);
          StreamPrefix(rest, tail);
          hide ReadOne;
          assert ReadAll(cut) == [p] + ReadAll(tail);
          if cut == whole { assert tail == WriteAll(rest); }
        } else {
          assert cut < f by { assert f == whole[..|f|]; }
          PartialFrame(p, cut);
        }
      }
    }
  }

  // ---- Messages on a stream ----

  function Encoded<H>(c: Codec<H>, ms: seq<Packet<H>>): seq<Bytes> {
    if ms == [] then [] else [Encode(c, ms[0])] + Encoded(c, ms[1..])
  }

  /** The messages whose frames are not too large, as the other end sees them. */
  function Sent<H>(c: Codec<H>, ms: seq<Packet<H>>): seq<Decoded<H>> {
    if ms == [] then []
    else (if Fits(Encode(c, ms[0])) then [Ok(Carried(ms[0]))] else []) + Sent(c, ms[1..])
  }

  function DecodeAll<H>(c: Codec<H>, frames: seq<Bytes>): seq<Decoded<H>> {
    if frames == [] then [] else [Decode(c, frames[0])] + DecodeAll(c, frames[1..])
  }

  lemma {:induction false} AcceptedDecode<H(!new)>(c: Codec<H>, ms: seq<Packet<H>>)
    requires Lossless(c) && forall m | m in ms :: c.kind(m.header) != ""
    ensures DecodeAll(c, Accepted(Encoded(c, ms))) == Sent(c, ms)
    decreases |ms|
  {
    if ms != [] {
      var e := Encode(c, ms[0]);
      AcceptedDecode(c, ms[1..]);
      assert Encoded(c, ms)[0] == e && Encoded(c, ms)[1..] == Encoded(c, ms[1..]);
      if Fits(e) {
        MessageRoundTrip(c, ms[0]);
        hide Encode, Decode;
        var frames := Accepted(Encoded(c, ms));
        assert frames == [e] + Accepted(Encoded(c, ms[1..]));
        assert frames[1..] == Accepted(Encoded(c, ms[1..]));
        assert DecodeAll(c, frames) == [Decode(c, e)] + DecodeAll(c, frames[1..]);
        assert Sent(c, ms) == [Ok(Carried(ms[0]))] + Sent(c, ms[1..]);
      } else {
        assert Accepted(Encoded(c, ms)) == Accepted(Encoded(c, ms[1..]));
        assert Sent(c, ms) == Sent(c, ms[1..]);
      }
    }
  }

  lemma {:induction false} DecodeAllPrefix<H>(c: Codec<H>, a: seq<Bytes>, b: seq<Bytes>)
    requires a <= b
    ensures DecodeAll(c, a) <= DecodeAll(c, b)
    decreases |a|
  {
    hide Decode;
    if a != [] { DecodeAllPrefix(c, a[1..], b[1..]); }
  }

  /** For every list of messages and every point at which the connection may break, the
      reader decodes a prefix of the messages that fit a frame, each whole and in order,
      and over an unbroken stream exactly those messages. */
  lemma StreamRoundTrip<H(!new)>(c: Codec<H>, ms: seq<Packet<H>>, cut: Bytes)
    requires Lossless(c) && forall m | m in ms :: c.kind(m.header) != ""
    requires cut <= WriteAll(Encoded(c, ms))
    ensures DecodeAll(c, ReadAll(cut)) <= Sent(c, ms)
    ensures cut == WriteAll(Encoded(c, ms)) ==> DecodeAll(c, ReadAll(cut)) == Sent(c, ms)
  {
    StreamPrefix(Encoded(c, ms), cut);
    AcceptedDecode(c, ms);
    DecodeAllPrefix(c, ReadAll(cut), Accepted(Encoded(c, ms)));
  }
}
