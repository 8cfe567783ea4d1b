/** What each lock section of the sync engine does to a device, as functions on
    its state (internal/node/node.go; android core/Node.kt follows the same steps). */
module Sync {
  import opened Basics
  import opened Wire

  type LinkId = nat

  const SEEN_LIMIT := 4096

  datatype Device = Device(paused: bool, skipSensitive: bool, links: set<LinkId>, current: Option<Message>,
                           seen: seq<string>, lastHash: Option<Hash>, lastSeq: nat)

  /** markSeen: remember an id, forgetting the oldest beyond the window. */
  function Remember(seen: seq<string>, id: string): seq<string> {
    if id in seen then seen
    else if |seen| + 1 > SEEN_LIMIT then (seen + [id])[1..]
    else seen + [id]
  }

  /** Everything remembered afterwards was remembered before or is the new id,
      and the new id is among it. */
  lemma RememberKeeps(seen: seq<string>, id: string)
    ensures id in Remember(seen, id)
    ensures forall x | x in Remember(seen, id) :: x == id || x in seen
  {
    if id !in seen {
      assert Remember(seen, id)[|Remember(seen, id)| - 1] == id;
    }
  }

  /** The window after a series of ids. */
  function RememberAll(seen: seq<string>, ids: seq<string>): seq<string> {
    if ids == [] then seen else Remember(RememberAll(seen, ids[..|ids| - 1]), ids[|ids| - 1])
  }

  /** The id is in the window with at most n others behind it. */
  predicate Near(seen: seq<string>, id: string, n: nat) {
    exists i :: 0 <= i < |seen| && seen[i] == id && |seen| - 1 - i <= n
  }

  lemma StaysNear(seen: seq<string>, id: string, n: nat, x: string)
    requires |seen| <= SEEN_LIMIT && Near(seen, id, n) && n + 1 < SEEN_LIMIT
    ensures Near(Remember(seen, x), id, n + 1) && |Remember(seen, x)| <= SEEN_LIMIT
  {
    var i :| 0 <= i < |seen| && seen[i] == id && |seen| - 1 - i <= n;
    var now := Remember(seen, x);
    if |now| == |seen| + 1 || now == seen { assert now[i] == id; } else { assert now[i - 1] == id; }
  }

  /** An id is forgotten at the earliest when 4096 others have come after it. */
  lemma {:induction false} RememberedFor(seen: seq<string>, id: string, ids: seq<string>)
    requires |seen| <= SEEN_LIMIT && |ids| < 4096 && id !in seen
    ensures var now := RememberAll(Remember(seen, id), ids); id in now && Near(now, id, |ids|) && |now| <= SEEN_LIMIT
    decreases |ids|
  {
    hide Near, Remember;
    if ids == [] {
      NearAtFirst(seen, id);
    } else {
      RememberedFor(seen, id, ids[..|ids| - 1]);
      StaysNear(RememberAll(Remember(seen, id), ids[..|ids| - 1]), id, |ids| - 1, ids[|ids| - 1]);
    }
    NearIsIn(RememberAll(Remember(seen, id), ids), id, |ids|);
  }

  lemma NearAtFirst(seen: seq<string>, id: string)
    requires |seen| <= SEEN_LIMIT && id !in seen
    ensures Near(Remember(seen, id), id, 0) && |Remember(seen, id)| <= SEEN_LIMIT
  {
    var now := Remember(seen, id);
    assert now[|now| - 1] == id;
  }

  lemma NearIsIn(seen: seq<string>, id: string, n: nat)
    requires Near(seen, id, n)
    ensures id in seen
  {}

  /** First lock section of Handle: is the clip worth decrypting? */
  function Check(d: Device, m: Message): (Device, bool) {
    if d.paused then (d, false)
    else (d.(seen := Remember(d.seen, m.id)), m.id !in d.seen && Newer(m, d.current))
  }

  datatype Outcome = Stale | Adopted(forward: set<LinkId>, write: bool)

  /** Second lock section of Handle: adopt the clip if it is still newer. */
  function Commit(d: Device, l: LinkId, m: Message, h: Hash): (Device, Outcome) {
    if !Newer(m, d.current) then (d, Stale)
    else (d.(current := Some(m), lastHash := Some(h)), Adopted(d.links - {l}, Some(h) != d.lastHash))
  }

  /** The time LocalCopy stamps: now, or just past the current clip. */
  function Stamp(now: int, current: Option<Message>): int {
    if current.Some? && now <= current.value.time then Wrap64(current.value.time + 1) else now
  }

  /** First lock section of LocalCopy together with the sealing that follows it. */
  function Originate(d: Device, c: Content, now: int, id: string, me: string, name: string, key: Key)
    : (Device, Option<Message>)
  {
    if !c.Valid() || Some(c.Digest()) == d.lastHash then (d, None)
    else if d.paused || (c.sensitive && d.skipSensitive) then (d.(lastHash := Some(c.Digest())), None)
    else
      var m := Message(TYPE_CLIP, id, me, name, Stamp(now, d.current), c.ctype, c.mime, "", 0, "", NoBody);
      (d.(lastHash := Some(c.Digest())), Some(SealClip(key, m, c.Payload())))
  }

  /** Second lock section of LocalCopy: the stamped clip becomes current, whatever
      current has become meanwhile, and goes to every link. */
  function Publish(d: Device, m: Message): (Device, set<LinkId>) {
    (d.(current := Some(m), seen := Remember(d.seen, m.id)), d.links)
  }

  function AddLink(d: Device, l: LinkId): Device {
    d.(links := d.links + {l})
  }

  function RemoveLink(d: Device, l: LinkId): Device {
    d.(links := d.links - {l})
  }

  /** A stamped clip beats the clip it was stamped against exactly when the stamp
      did not overflow the 64-bit clock. */
  lemma StampWins(now: int, cur: Message, m: Message)
    requires -TWO_63 <= now < TWO_63 && -TWO_63 <= cur.time < TWO_63
    requires m.time == Stamp(now, Some(cur))
    ensures Beats(m, cur) <==> cur.time < MAX_INT64
  {}

  /** What LocalCopy produces is a genuine clip of the copied content. */
  lemma OriginateIsGenuine(d: Device, c: Content, now: int, id: string, me: string, name: string, key: Key)
    ensures var (d', m) := Originate(d, c, now, id, me, name, key);
            m.Some? ==> SealedFrom(key, m.value, c) && Genuine(key, m.value) && m.value.id == id
                        && m.value.time == Stamp(now, d.current)
  {
    var (d', m) := Originate(d, c, now, id, me, name, key);
    if m.Some? { assert SealedFrom(key, m.value, c); }
  }

  /** What LocalCopy sends and when. The clip is stamped with the time of the copy, unless
      the current clip claims that time or a later one; then with the next moment after
      that. It names this device as its origin. */
  lemma CopyIsStampedNow(d: Device, c: Content, now: int, id: string, me: string, name: string, key: Key)
    requires -TWO_63 <= now < TWO_63
    ensures var m := Originate(d, c, now, id, me, name, key).1;
            && (m.Some? <==> c.Valid() && Some(c.Digest()) != d.lastHash && !d.paused && !(c.sensitive && d.skipSensitive))
            && (m.Some? ==> m.value.mtype == TYPE_CLIP && m.value.origin == me && m.value.originName == name
                            && OpenClip(key, m.value) == Some(c.Payload()))
            && (m.Some? && (d.current.None? || d.current.value.time < now) ==> m.value.time == now)
            && (m.Some? && d.current.Some? && now <= d.current.value.time < MAX_INT64 ==> m.value.time == d.current.value.time + 1)
  {
    hide Join5, FormatInt;
  }

  /** Over any two lock sections of Handle, however much happened between them,
      the device's clip never goes backwards, and it ends at least as new as the
      clip handled. */
  lemma CommitNeverGoesBack(d: Device, l: LinkId, m: Message, h: Hash)
    ensures var d' := Commit(d, l, m, h).0;
            Covers(d'.current, m) && (d.current.Some? ==> Covers(d'.current, d.current.value))
  {
    CoversSelf(m);
    if d.current.Some? {
      CoversSelf(d.current.value);
      if Beats(m, d.current.value) { NewerCovers(m, d.current.value); }
    }
  }

  /** A clip that has come once, or was made here, is not decrypted again when a second copy
      of it comes, whatever the device holds by then, unless 4096 other ids came between. */
  lemma HandledOnce(d: Device, m: Message, ids: seq<string>, later: Device, copy: Message)
    requires |d.seen| <= SEEN_LIMIT && m.id !in d.seen && |ids| < 4096 && copy.id == m.id
    requires later.seen == RememberAll(Check(d, m).0.seen, ids) || later.seen == RememberAll(Publish(d, m).0.seen, ids)
    requires !d.paused
    ensures !Check(later, copy).1
  {
    RememberedFor(d.seen, m.id, ids);
    hide Newer;
  }

  /** What a paused device throws away it does not remember, so that it can still take the
      clip when it comes again. */
  lemma PausedForgets(d: Device, m: Message)
    requires d.paused
    ensures Check(d, m) == (d, false)
    ensures m.id !in d.seen && Newer(m, d.current) ==> Check(Check(d, m).0.(paused := false), m).1
  {}

  // ---- Whole calls, with nothing in between ----

  /** The in-process clipboard: its contents and a change counter. */
  datatype Board = Board(content: Option<Content>, changes: nat)

  /** What the clipboard answered during one call: whether reading the counter, reading
      the contents, writing, and reading the counter again succeeded. */
  datatype Io = Io(counter: bool, read: bool, write: bool, counterAfter: bool)

  function Write(b: Board, c: Content): Board {
    Board(Some(c), b.changes + 1)
  }

  /** Handle for a clip: device, clipboard and links to forward it over. */
  function HandleClip(d: Device, b: Board, l: LinkId, m: Message, key: Key, io: Io): (Device, Board, set<LinkId>) {
    var (d1, go) := Check(d, m);
    if !go || OpenClip(key, m).None? then (d1, b, {})
    else
      var content := ContentFrom(m, OpenClip(key, m).value);
      if content.None? then (d1, b, {})
      else
        match Commit(d1, l, m, content.value.Digest())
        case (d2, Stale) => (d2, b, {})
        case (d2, Adopted(forward, write)) =>
          if !write || !io.write then (d2, b, forward)
          else
            var b' := Write(b, content.value);
            (if io.counterAfter then d2.(lastSeq := b'.changes) else d2, b', forward)
  }

  /** LocalCopy: the clip it sends, if any, and where. */
  function LocalCopy(d: Device, c: Content, now: int, id: string, me: string, name: string, key: Key)
    : (Device, Option<Message>, set<LinkId>)
  {
    match Originate(d, c, now, id, me, name, key)
    case (d1, None) => (d1, None, {})
    case (d1, Some(m)) => var (d2, ls) := Publish(d1, m); (d2, Some(m), ls)
  }

  /** poll. */
  function Poll(d: Device, b: Board, now: int, id: string, me: string, name: string, key: Key, io: Io)
    : (Device, Option<Message>, set<LinkId>)
  {
    if !io.counter || b.changes == d.lastSeq then (d, None, {})
    else
      var d1 := d.(lastSeq := b.changes);
      if !io.read || b.content.None? then (d1, None, {})
      else LocalCopy(d1, b.content.value, now, id, me, name, key)
  }

  /** A clip the device adopts was sealed under the group's key with the very header it came
      with, holds what it says it does, within the limits for its kind, and is what is put
      on the clipboard. */
  lemma OnlyGroupClipsAreAdopted(d: Device, b: Board, l: LinkId, m: Message, key: Key, io: Io)
    ensures var (d', b', ls) := HandleClip(d, b, l, m, key, io);
            (d'.current != d.current || b' != b || ls != {}) ==>
              && !d.paused && d'.current == Some(m) && Newer(m, d.current) && m.id !in d.seen
              && m.body.Sealed? && m.body.key == key && m.body.aad == ClipAad(m)
              && ((m.ctype == "text" && 1 <= |m.body.plain| <= 1_048_576) || (m.ctype == "image" && 1 <= |m.body.plain| <= 26_214_400))
              && d'.lastHash == Some(HashOf(m.ctype, m.body.plain))
              && (forall x :: x in ls <==> x in d.links && x != l)
              && (b' != b ==> b'.content.Some? && b'.content.value.ctype == m.ctype && b'.content.value.Payload() == m.body.plain)
  {
    hide ClipAad, Remember, Newer;
    Kinds();
  }

  lemma Kinds()
    ensures CLIP_TEXT == "text" && CLIP_IMAGE == "image" && CLIP_TEXT != CLIP_IMAGE
  {
    assert |CLIP_TEXT| != |CLIP_IMAGE|;
  }

  /** And every such clip is adopted if it is new, newer and the device is not paused; it is
      written to the clipboard exactly when the device has not just seen that content and the
      clipboard can be written, and then the device knows the write for its own. */
  lemma GroupClipsAreAdopted(d: Device, b: Board, l: LinkId, m: Message, key: Key, io: Io)
    requires !d.paused && m.id !in d.seen && Newer(m, d.current) && m.body.Sealed? && m.body.key == key && m.body.aad == ClipAad(m)
    requires (m.ctype == "text" && 1 <= |m.body.plain| <= 1_048_576) || (m.ctype == "image" && 1 <= |m.body.plain| <= 26_214_400)
    ensures var (d', b', ls) := HandleClip(d, b, l, m, key, io);
            && d'.current == Some(m)
            && (b'.changes != b.changes <==> d.lastHash != Some(HashOf(m.ctype, m.body.plain)) && io.write)
            && (b' != b ==> b'.changes == b.changes + 1 && (io.counterAfter ==> d'.lastSeq == b'.changes))
            && (b' == b || !io.counterAfter ==> d'.lastSeq == d.lastSeq)
  {
    hide ClipAad, Remember, Newer;
    Kinds();
  }

  /** Once a poll has looked at the clipboard, polling again does nothing until it changes;
      and so it is after the device's own write. */
  lemma PollSettles(d: Device, b: Board, now: int, id: string, me: string, name: string, key: Key, io: Io,
                    now': int, id': string, io': Io)
    requires io.counter
    ensures var d' := Poll(d, b, now, id, me, name, key, io).0; Poll(d', b, now', id', me, name, key, io') == (d', None, {})
  {
    hide SealClip, Remember, Stamp;
  }
}
