/** Direct links: the session key, the counter-nonce cipher and the locked sender
    (internal/protocol/protocol.go, conn.go). A 96-bit nonce is a fixed field naming the
    direction followed by a counter, the deterministic construction of section 8.2.1 of
    NIST SP 800-38D. */
module Channel {
  import opened Basics
  import opened Endian
  import opened Wire
  import Framing

  const DIR_CLIENT := 0x7662_0001
  const DIR_SERVER := 0x7662_0002
  const NONCE_SIZE := 16
  const VERSION := 2
  const TAG_SIZE := 16

  // ---- Session keys ----

  /** HMAC, idealised: equal only for equal keys and texts. */
  datatype SessionKey = Hmac(linkKey: Key, text: Bytes)

  const LABEL: Bytes := [118, 111, 105, 100, 98, 114, 105, 100, 103, 101, 45, 115, 101, 115, 115, 105, 111, 110, 45, 118, 50]

  function Session(linkKey: Key, clientNonce: Bytes, serverNonce: Bytes): SessionKey {
    Hmac(linkKey, LABEL + clientNonce + serverNonce)
  }

  /** For nonces of the fixed size, the key determines both of them and the link key. */
  lemma SessionInjective(k: Key, c: Bytes, s: Bytes, k': Key, c': Bytes, s': Bytes)
    requires |c| == |s| == |c'| == |s'| == NONCE_SIZE
    requires Session(k, c, s) == Session(k', c', s')
    ensures k == k' && c == c' && s == s'
  {
    var t, t' := LABEL + c + s, LABEL + c' + s';
    assert c == t[|LABEL|..|LABEL| + NONCE_SIZE] && c' == t'[|LABEL|..|LABEL| + NONCE_SIZE];
    assert s == t[|LABEL| + NONCE_SIZE..] && s' == t'[|LABEL| + NONCE_SIZE..];
  }

  // ---- The cipher ----

  /** An ideally sealed frame, or bytes nobody sealed. */
  datatype Frame = Sealed(key: SessionKey, nonce: Bytes, plain: Bytes) | Junk(raw: Bytes)

  function LinkNonce(dir: nat, n: nat): Bytes {
    BigEndian(dir, 4) + BigEndian(n, 8)
  }

  /** The state of a Cipher. */
  datatype End = End(key: SessionKey, sendDir: nat, recvDir: nat, sendCount: nat, recvCount: nat)

  function NewEnd(key: SessionKey, isServer: bool): End {
    if isServer then End(key, DIR_SERVER, DIR_CLIENT, 0, 0) else End(key, DIR_CLIENT, DIR_SERVER, 0, 0)
  }

  function Seal(c: End, plain: Bytes): (End, Frame) {
    (c.(sendCount := (c.sendCount + 1) % TWO_64), Frame.Sealed(c.key, LinkNonce(c.sendDir, c.sendCount), plain))
  }

  function Open(c: End, f: Frame): (End, Option<Bytes>) {
    if f.Sealed? && f.key == c.key && f.nonce == LinkNonce(c.recvDir, c.recvCount)
    then (c.(recvCount := (c.recvCount + 1) % TWO_64), Some(f.plain))
    else (c, None)
  }

  class Cipher {
    const key: SessionKey
    const sendDir: nat
    const recvDir: nat
    var sendCount: nat
    var recvCount: nat

    constructor (key: SessionKey, isServer: bool)
      ensures State() == NewEnd(key, isServer)
    {
      this.key := key;
      sendDir := if isServer then DIR_SERVER else DIR_CLIENT;
      recvDir := if isServer then DIR_CLIENT else DIR_SERVER;
      sendCount, recvCount := 0, 0;
    }

    function State(): End reads this {
      End(key, sendDir, recvDir, sendCount, recvCount)
    }

    method SealFrame(plain: Bytes) returns (f: Frame)
      modifies this`sendCount
      ensures (State(), f) == Seal(old(State()), plain)
    {
      f := Frame.Sealed(key, LinkNonce(sendDir, sendCount), plain);
      sendCount := (sendCount + 1) % TWO_64;
    }

    method OpenFrame(f: Frame) returns (plain: Option<Bytes>)
      modifies this`recvCount
      ensures (State(), plain) == Open(old(State()), f)
    {
      if f.Junk? || f.key != key || f.nonce != LinkNonce(recvDir, recvCount) {
        return None;
      }
      plain := Some(f.plain);
      recvCount := (recvCount + 1) % TWO_64;
    }
  }

  lemma LinkNonceInjective(dir: nat, n: nat, dir': nat, n': nat)
    requires dir < TWO_32 && dir' < TWO_32 && n < TWO_64 && n' < TWO_64
    ensures LinkNonce(dir, n) == LinkNonce(dir', n') <==> dir == dir' && n == n'
  {
    Pow256Values();
    BigEndianRoundTrip(dir, 4);
    BigEndianRoundTrip(dir', 4);
    BigEndianRoundTrip(n, 8);
    BigEndianRoundTrip(n', 8);
    var a, b := LinkNonce(dir, n), LinkNonce(dir', n');
    assert a[..4] == BigEndian(dir, 4) && b[..4] == BigEndian(dir', 4);
    assert a[4..] == BigEndian(n, 8) && b[4..] == BigEndian(n', 8);
  }

  /** The nonce of the i-th frame an end seals. */
  function NonceOf(dir: nat, i: nat): Bytes {
    LinkNonce(dir, i % TWO_64)
  }

  /** Two frames of one session share a nonce exactly when they go the same way and lie
      a multiple of 2^64 frames apart; below that, never. */
  lemma NoncesRepeatOnlyAfterWrap(dir: nat, i: nat, dir': nat, j: nat)
    requires dir in {DIR_CLIENT, DIR_SERVER} && dir' in {DIR_CLIENT, DIR_SERVER}
    ensures NonceOf(dir, i) == NonceOf(dir', j) <==> dir == dir' && i % TWO_64 == j % TWO_64
    ensures i < TWO_64 && j < TWO_64 ==> (NonceOf(dir, i) == NonceOf(dir', j) <==> dir == dir' && i == j)
  {
    hide LinkNonce;
    LinkNonceInjective(dir, i % TWO_64, dir', j % TWO_64);
  }

  // ---- Handshake ----

  datatype Hello = Hello(version: int, id: string, nonce: Bytes)

  /** The checks on the peer's hello, and the cipher that results. */
  function Agree(linkKey: Key, me: string, myNonce: Bytes, dialer: bool, peer: Hello): Option<End> {
    if peer.version != VERSION || |peer.nonce| != NONCE_SIZE || peer.id == "" || peer.id == me then None
    else
      var (cn, sn) := if dialer then (myNonce, peer.nonce) else (peer.nonce, myNonce);
      Some(NewEnd(Session(linkKey, cn, sn), !dialer))
  }

  /** A dialer and a listener that see each other's hello unchanged derive one key and
      opposite directions; with different link keys, or a changed nonce, different keys. */
  lemma EndsAgree(k1: Key, id1: string, n1: Bytes, k2: Key, id2: string, n2: Bytes, seen1: Bytes, seen2: Bytes)
    requires |n1| == |n2| == |seen1| == |seen2| == NONCE_SIZE && id1 != "" && id2 != "" && id1 != id2
    ensures var d := Agree(k1, id1, n1, true, Hello(VERSION, id2, seen2));
            var l := Agree(k2, id2, n2, false, Hello(VERSION, id1, seen1));
            && d.Some? && l.Some?
            && d.value.sendDir == l.value.recvDir && d.value.recvDir == l.value.sendDir && d.value.sendDir != d.value.recvDir
            && (d.value.key == l.value.key <==> k1 == k2 && n1 == seen1 && n2 == seen2)
  {
    if Session(k1, n1, seen2) == Session(k2, seen1, n2) { SessionInjective(k1, n1, seen2, k2, seen1, n2); }
  }

  /** The ready message that follows: sent sealed, and expected from the peer. */
  function Ready(c: End, ready: Bytes): Frame {
    Seal(c, ready).1
  }

  predicate Completes(c: End, ready: Bytes, got: Frame) {
    Open(Seal(c, ready).0, got).1 == Some(ready)
  }

  /** Each end can open the other's ready message exactly when both hold the same link key
      and saw each other's nonce unchanged. So devices of different groups never connect. */
  lemma HandshakeAuthenticates(k1: Key, id1: string, n1: Bytes, k2: Key, id2: string, n2: Bytes, seen1: Bytes, seen2: Bytes, ready: Bytes)
    requires |n1| == |n2| == |seen1| == |seen2| == NONCE_SIZE && id1 != "" && id2 != "" && id1 != id2
    ensures var d := Agree(k1, id1, n1, true, Hello(VERSION, id2, seen2));
            var l := Agree(k2, id2, n2, false, Hello(VERSION, id1, seen1));
            && d.Some? && l.Some?
            && (Completes(d.value, ready, Ready(l.value, ready)) <==> k1 == k2 && n1 == seen1 && n2 == seen2)
            && (Completes(l.value, ready, Ready(d.value, ready)) <==> k1 == k2 && n1 == seen1 && n2 == seen2)
  {
    hide LinkNonce, Session;
    EndsAgree(k1, id1, n1, k2, id2, n2, seen1, seen2);
  }

  /** One end of a direct link: its cipher and what it has written and is yet to read. */
  class Conn {
    const cipher: Cipher
    var written: seq<Frame>
    var unread: seq<Frame>

    constructor (cipher: Cipher)
      ensures this.cipher == cipher && written == [] && unread == []
    {
      this.cipher := cipher;
      written, unread := [], [];
    }

    /** Conn.Send, all of it under the send lock. */
    method SendMessage(plain: Bytes) returns (ok: bool)
      modifies this`written, cipher`sendCount
      ensures (cipher.State(), written) == Send(old(cipher.State()), old(written), plain)
      ensures ok == Fits(plain)
    {
      var f := cipher.SealFrame(plain);
      if |plain| + TAG_SIZE > Framing.MAX_FRAME + Framing.SLACK { return false; }
      written := written + [f];
      ok := true;
    }

    /** Conn.Recv: the next frame, if there is one and it opens. */
    method RecvMessage() returns (plain: Option<Bytes>)
      modifies this`unread, cipher`recvCount
      ensures if old(unread) == [] then plain == None && cipher.State() == old(cipher.State()) && unread == []
              else (cipher.State(), plain) == Open(old(cipher.State()), old(unread)[0]) && unread == old(unread)[1..]
    {
      if unread == [] { return None; }
      var f := unread[0];
      unread := unread[1..];
      plain := cipher.OpenFrame(f);
    }
  }

  // ---- An adversary on the wire ----

  /** One session: what each end has sealed and opened so far. */
  datatype Link = Link(dialer: End, listener: End, sentD: seq<Bytes>, sentL: seq<Bytes>, gotD: seq<Bytes>, gotL: seq<Bytes>)

  datatype Event =
    | DialerSeals(plain: Bytes)
    | ListenerSeals(plain: Bytes)
    | ReachesDialer(f: Frame)
    | ReachesListener(f: Frame)

  /** The adversary can present any frame sealed so far in either direction, in any order
      and as often as it likes, and anything not sealed under the session key. */
  ghost predicate Presentable(s: Link, f: Frame) {
    || f.Junk? || f.key != s.dialer.key
    || (exists i :: 0 <= i < |s.sentD| && f == Frame.Sealed(s.dialer.key, NonceOf(DIR_CLIENT, i), s.sentD[i]))
    || (exists i :: 0 <= i < |s.sentL| && f == Frame.Sealed(s.dialer.key, NonceOf(DIR_SERVER, i), s.sentL[i]))
  }

  ghost predicate Enabled(s: Link, e: Event) {
    match e
    case DialerSeals(plain) => |s.sentD| < TWO_64
    case ListenerSeals(plain) => |s.sentL| < TWO_64
    case ReachesDialer(f) => Presentable(s, f) && |s.gotD| < TWO_64
    case ReachesListener(f) => Presentable(s, f) && |s.gotL| < TWO_64
  }

  function Next(s: Link, e: Event): Link {
    match e
    case DialerSeals(plain) => s.(dialer := Seal(s.dialer, plain).0, sentD := s.sentD + [plain])
    case ListenerSeals(plain) => s.(listener := Seal(s.listener, plain).0, sentL := s.sentL + [plain])
    case ReachesDialer(f) =>
      var (c, p) := Open(s.dialer, f);
      if p.None? then s else s.(dialer := c, gotD := s.gotD + [p.value])
    case ReachesListener(f) =>
      var (c, p) := Open(s.listener, f);
      if p.None? then s else s.(listener := c, gotL := s.gotL + [p.value])
  }

  ghost predicate Runs(s: Link, es: seq<Event>)
    decreases |es|
  {
    es == [] || (Enabled(s, es[0]) && Runs(Next(s, es[0]), es[1..]))
  }

  function After(s: Link, es: seq<Event>): Link
    decreases |es|
  {
    if es == [] then s else After(Next(s, es[0]), es[1..])
  }

  function Opening(key: SessionKey): Link {
    Link(NewEnd(key, false), NewEnd(key, true), [], [], [], [])
  }

  predicate Inv(s: Link) {
    && s.dialer == End(s.dialer.key, DIR_CLIENT, DIR_SERVER, |s.sentD| % TWO_64, |s.gotD| % TWO_64)
    && s.listener == End(s.dialer.key, DIR_SERVER, DIR_CLIENT, |s.sentL| % TWO_64, |s.gotL| % TWO_64)
    && |s.sentD| <= TWO_64 && |s.sentL| <= TWO_64
    && s.gotL <= s.sentD && s.gotD <= s.sentL
  }

  lemma ListenerOpens(s: Link, f: Frame)
    requires Inv(s) && Enabled(s, ReachesListener(f))
    ensures Inv(Next(s, ReachesListener(f)))
  {
    hide LinkNonce;
    var n := |s.gotL|;
    if Open(s.listener, f).1.Some? {
      if i :| 0 <= i < |s.sentD| && f == Frame.Sealed(s.dialer.key, NonceOf(DIR_CLIENT, i), s.sentD[i]) {
        NoncesRepeatOnlyAfterWrap(DIR_CLIENT, i, DIR_CLIENT, n);
        assert s.gotL + [s.sentD[i]] <= s.sentD;
      } else {
        var j :| 0 <= j < |s.sentL| && f == Frame.Sealed(s.dialer.key, NonceOf(DIR_SERVER, j), s.sentL[j]);
        NoncesRepeatOnlyAfterWrap(DIR_SERVER, j, DIR_CLIENT, n);
      }
    }
  }

  lemma DialerOpens(s: Link, f: Frame)
    requires Inv(s) && Enabled(s, ReachesDialer(f))
    ensures Inv(Next(s, ReachesDialer(f)))
  {
    hide LinkNonce;
    var n := |s.gotD|;
    if Open(s.dialer, f).1.Some? {
      if i :| 0 <= i < |s.sentL| && f == Frame.Sealed(s.dialer.key, NonceOf(DIR_SERVER, i), s.sentL[i]) {
        NoncesRepeatOnlyAfterWrap(DIR_SERVER, i, DIR_SERVER, n);
        assert s.gotD + [s.sentL[i]] <= s.sentL;
      } else {
        var j :| 0 <= j < |s.sentD| && f == Frame.Sealed(s.dialer.key, NonceOf(DIR_CLIENT, j), s.sentD[j]);
        NoncesRepeatOnlyAfterWrap(DIR_CLIENT, j, DIR_SERVER, n);
      }
    }
  }

  lemma StepKeeps(s: Link, e: Event)
    requires Inv(s) && Enabled(s, e)
    ensures Inv(Next(s, e))
  {
    hide LinkNonce, Presentable;
    match e
    case DialerSeals(plain) =>
    case ListenerSeals(plain) =>
    case ReachesDialer(f) => DialerOpens(s, f);
    case ReachesListener(f) => ListenerOpens(s, f);
  }

  lemma {:induction false} RunKeeps(s: Link, es: seq<Event>)
    requires Inv(s) && Runs(s, es)
    ensures Inv(After(s, es))
    decreases |es|
  {
    if es != [] {
      StepKeeps(s, es[0]);
      RunKeeps(Next(s, es[0]), es[1..]);
    }
  }

  /** Whatever is dropped, replayed, reordered, reflected or injected, what an end opens
      is always a prefix of what the other end sealed. */
  lemma ChannelIsSafe(key: SessionKey, es: seq<Event>)
    requires Runs(Opening(key), es)
    ensures var s := After(Opening(key), es); s.gotL <= s.sentD && s.gotD <= s.sentL
  {
    RunKeeps(Opening(key), es);
  }

  // ---- Concurrent senders on an honest stream ----

  predicate Fits(plain: Bytes) {
    |plain| + TAG_SIZE <= Framing.MAX_FRAME + Framing.SLACK
  }

  /** Conn.Send under its lock: the frame is sealed either way, and written if it fits. */
  function Send(c: End, stream: seq<Frame>, plain: Bytes): (End, seq<Frame>) {
    var (c', f) := Seal(c, plain);
    (c', if Fits(plain) then stream + [f] else stream)
  }

  /** The messages in the order their senders got the lock. */
  function SendAll(c: End, stream: seq<Frame>, plains: seq<Bytes>): (End, seq<Frame>)
    decreases |plains|
  {
    if plains == [] then (c, stream)
    else
      var (c', stream') := Send(c, stream, plains[0]);
      SendAll(c', stream', plains[1..])
  }

  /** Conn.Recv until a frame does not open. */
  function RecvAll(c: End, stream: seq<Frame>): seq<Bytes>
    decreases |stream|
  {
    if stream == [] then []
    else
      var (c', p) := Open(c, stream[0]);
      if p.None? then [] else [p.value] + RecvAll(c', stream[1..])
  }

  /** The frames that end up on the stream, numbered by the counter at sealing. */
  function Written(c: End, plains: seq<Bytes>): seq<Frame>
    decreases |plains|
  {
    if plains == [] then []
    else
      var (c', f) := Seal(c, plains[0]);
      (if Fits(plains[0]) then [f] else []) + Written(c', plains[1..])
  }

  lemma {:induction false} SendAllWrites(c: End, stream: seq<Frame>, plains: seq<Bytes>)
    ensures SendAll(c, stream, plains).1 == stream + Written(c, plains)
    decreases |plains|
  {
    if plains != [] {
      var (c', stream') := Send(c, stream, plains[0]);
      SendAllWrites(c', stream', plains[1..]);
    }
  }

  /** How many messages go out before the first that is too large. */
  function FittingPrefix(plains: seq<Bytes>): (k: nat)
    ensures k <= |plains|
    ensures forall i | 0 <= i < k :: Fits(plains[i])
    ensures k < |plains| ==> !Fits(plains[k])
  {
    if plains == [] || !Fits(plains[0]) then 0 else 1 + FittingPrefix(plains[1..])
  }

  predicate InStep(a: End, b: End) {
    a.key == b.key && a.sendDir == b.recvDir && a.sendDir in {DIR_CLIENT, DIR_SERVER} && a.sendCount == b.recvCount < TWO_64
  }

  /** A receiver whose counter is behind opens nothing of what is left. */
  lemma {:induction false} BehindOpensNothing(a: End, b: End, plains: seq<Bytes>)
    requires a.key == b.key && a.sendDir == b.recvDir && a.sendDir in {DIR_CLIENT, DIR_SERVER}
    requires b.recvCount < a.sendCount && a.sendCount + |plains| <= TWO_64
    ensures RecvAll(b, Written(a, plains)) == []
    decreases |plains|
  {
    hide LinkNonce;
    if plains != [] {
      LinkNonceInjective(a.sendDir, a.sendCount, b.recvDir, b.recvCount);
      var (a', f) := Seal(a, plains[0]);
      if !Fits(plains[0]) {
        assert Written(a, plains) == Written(a', plains[1..]);
        if plains[1..] != [] { BehindOpensNothing(a', b, plains[1..]); }
      } else {
        assert Written(a, plains)[0] == f;
      }
    }
  }

  /** With sealing and writing under one lock, however many senders contend for it, the
      receiver opens every message in order, up to the first that was too large; after
      that one, nothing opens any more. */
  lemma {:induction false} LockedSendersStayInStep(a: End, b: End, plains: seq<Bytes>)
    requires InStep(a, b) && a.sendCount + |plains| <= TWO_64
    ensures RecvAll(b, SendAll(a, [], plains).1) == plains[..FittingPrefix(plains)]
    decreases |plains|
  {
    SendAllWrites(a, [], plains);
    assert [] + Written(a, plains) == Written(a, plains);
    WrittenOpens(a, b, plains);
  }

  lemma {:induction false} WrittenOpens(a: End, b: End, plains: seq<Bytes>)
    requires InStep(a, b) && a.sendCount + |plains| <= TWO_64
    ensures RecvAll(b, Written(a, plains)) == plains[..FittingPrefix(plains)]
    decreases |plains|
  {
    hide LinkNonce;
    if plains != [] {
      var (a', f) := Seal(a, plains[0]);
      var rest := plains[1..];
      if !Fits(plains[0]) {
        assert Written(a, plains) == Written(a', rest);
        if rest != [] { BehindOpensNothing(a', b, rest); }
      } else {
        var (b', p) := Open(b, f);
        assert Written(a, plains)[0] == f && Written(a, plains)[1..] == Written(a', rest);
        if rest != [] { WrittenOpens(a', b', rest); }
        assert plains[..FittingPrefix(plains)] == [plains[0]] + rest[..FittingPrefix(rest)];
      }
    }
  }

  /** Without the lock two senders could write in the other order than they sealed, and
      the receiver would open neither frame. */
  lemma UnlockedSendersBreak(a: End, b: End, p: Bytes, q: Bytes)
    requires InStep(a, b) && a.sendCount + 2 <= TWO_64
    ensures var (a1, f) := Seal(a, p);
            var (a2, g) := Seal(a1, q);
            RecvAll(b, [g, f]) == []
  {
    hide LinkNonce;
    LinkNonceInjective(a.sendDir, a.sendCount + 1, b.recvDir, b.recvCount);
  }

  /** A hello is accepted exactly from a peer of the same version that gives a nonce of the
      right size and a name that is not one's own: a device never connects to itself. */
  lemma ProperPeersOnly(linkKey: Key, me: string, myNonce: Bytes, dialer: bool, peer: Hello)
    ensures Agree(linkKey, me, myNonce, dialer, peer).Some? <==> peer.version == 2 && |peer.nonce| == 16 && peer.id != "" && peer.id != me
  {}

  /** The first frame each way that an honest peer seals opens, and a frame sealed for the
      other direction does not: a message cannot be sent back to its sender. */
  lemma ReflectedFramesDoNotOpen(c: End, plain: Bytes)
    requires c.sendDir in {DIR_CLIENT, DIR_SERVER} && c.recvDir in {DIR_CLIENT, DIR_SERVER} && c.sendDir != c.recvDir
    requires c.sendCount < TWO_64 && c.recvCount < TWO_64
    ensures Open(c, Seal(c, plain).1) == (c, None)
  {
    LinkNonceInjective(c.sendDir, c.sendCount, c.recvDir, c.recvCount);
    hide LinkNonce;
  }
}
