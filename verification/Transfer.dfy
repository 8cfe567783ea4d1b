/** Sending one file to one device: what the sender sends and how a device handles each
    file message (internal/node/files.go). */
module Transfer {
  import opened Basics
  import opened Wire
  import opened Naming
  import F = Folder

  const CHUNK := 512 * 1024
  const IDLE_NANOS := 60 * 1_000_000_000

  datatype Meta = Meta(name: seq<Rune>, size: int, mime: string)

  /** Library code the transfer relies on: the JSON form of the metadata and the hex
      SHA-256 of the file. */
  datatype Library = Library(encode: Meta -> Bytes, decode: Bytes -> Option<Meta>, sum: Bytes -> Bytes)

  /** Decoding undoes encoding, and no two files share a sum. */
  ghost predicate Ideal(lib: Library) {
    && (forall m: Meta :: lib.decode(lib.encode(m)) == Some(m))
    && (forall a: Bytes, b: Bytes | lib.sum(a) == lib.sum(b) :: a == b)
  }

  // ---- What the sender sends ----

  /** One call of SendFile. */
  datatype Job = Job(id: string, me: string, name: string, to: string, key: Key, meta: Meta, data: Bytes)

  /** The data in blocks of CHUNK bytes, the last one shorter; none for an empty file. */
  function Chunks(data: Bytes): seq<Bytes>
    decreases |data|
  {
    if data == [] then []
    else if |data| <= CHUNK then [data]
    else [data[..CHUNK]] + Chunks(data[CHUNK..])
  }

  function Seal(job: Job, mtype: string, seqNo: int, plain: Bytes): Message {
    SealFile(job.key, Message(mtype, job.id, job.me, job.name, 0, "", "", job.to, seqNo, "", NoBody), plain)
  }

  function StartOf(lib: Library, job: Job): Message {
    Seal(job, TYPE_FILE_START, 0, lib.encode(job.meta))
  }

  function ChunkOf(job: Job, k: nat): Message
    requires k < |Chunks(job.data)|
  {
    Seal(job, TYPE_FILE_CHUNK, k, Chunks(job.data)[k])
  }

  function EndOf(lib: Library, job: Job): Message {
    Seal(job, TYPE_FILE_END, |Chunks(job.data)|, lib.sum(job.data))
  }

  /** Everything a successful call sends, in order. */
  function Script(lib: Library, job: Job): (s: seq<Message>)
    ensures |s| == |Chunks(job.data)| + 2
  {
    [StartOf(lib, job)] + seq(|Chunks(job.data)|, k requires 0 <= k < |Chunks(job.data)| => ChunkOf(job, k)) + [EndOf(lib, job)]
  }

  /** The first k chunks put together again. */
  function Joined(cs: seq<Bytes>): Bytes {
    if cs == [] then [] else Joined(cs[..|cs| - 1]) + cs[|cs| - 1]
  }

  lemma {:induction false} JoinedFront(c: Bytes, cs: seq<Bytes>)
    ensures Joined([c] + cs) == c + Joined(cs)
  {
    var all := [c] + cs;
    if cs == [] {
      assert all[..0] == [];
      assert Joined(all) == Joined(all[..0]) + all[0] == c;
    } else {
      assert all[..|all| - 1] == [c] + cs[..|cs| - 1];
      JoinedFront(c, cs[..|cs| - 1]);
    }
  }

  /** Cutting into chunks loses nothing, for every length. */
  lemma {:induction false} ChunksJoin(data: Bytes)
    ensures Joined(Chunks(data)) == data
    decreases |data|
  {
    if |data| > CHUNK {
      ChunksJoin(data[CHUNK..]);
      JoinedFront(data[..CHUNK], Chunks(data[CHUNK..]));
    } else if data != [] {
      JoinedFront(data, []);
    }
  }

  lemma SliceShift(data: Bytes, a: nat, b: nat)
    requires |data| >= CHUNK && a <= b <= |data| - CHUNK
    ensures data[CHUNK..][a..b] == data[CHUNK + a..CHUNK + b]
  {}

  /** Chunk k is the k-th block, and every block but the last is full. */
  lemma {:induction false} ChunkAt(data: Bytes, k: nat)
    ensures |Chunks(data)| == (|data| + CHUNK - 1) / CHUNK
    ensures k < |Chunks(data)| ==> Chunks(data)[k] == data[k * CHUNK..if (k + 1) * CHUNK < |data| then (k + 1) * CHUNK else |data|]
    decreases |data|
  {
    if |data| > CHUNK {
      var rest := data[CHUNK..];
      assert Chunks(data) == [data[..CHUNK]] + Chunks(rest);
      hide Chunks;
      ChunkAt(rest, if k > 0 then k - 1 else 0);
      if 0 < k < |Chunks(data)| {
        assert Chunks(data)[k] == Chunks(rest)[k - 1];
        SliceShift(data, (k - 1) * CHUNK, if k * CHUNK < |rest| then k * CHUNK else |rest|);
      }
    }
  }

  // ---- What a device does with a file message ----

  datatype Incoming = Incoming(meta: Meta, from: string, writer: F.Handle, next: int, got: int, fed: Bytes, active: int)

  /** The file half of one device. `acks` are the one-slot channels of its own sends;
      `told` are the transfers whose outcome has been reported to the user. */
  datatype Inbox = Inbox(me: string, key: Key, receives: bool, acks: map<string, Option<string>>,
                         incoming: map<string, Incoming>, disk: F.Disk, told: multiset<F.Handle>)

  /** What the disk answers during one call; `temp` is the random part of a temporary name. */
  datatype Io = Io(temp: Option<string>, short: Option<nat>, closes: bool, renames: bool, why: string)

  datatype Saved = Saved(id: string, name: string, content: Bytes)

  const REFUSED := "that device can't receive files"
  const BAD_HEADER := "bad file header"
  const CANNOT_SAVE := "the other device couldn't save the file: "
  const CANNOT_WRITE := "the other device couldn't write the file: "
  const OUT_OF_ORDER := "file data arrived out of order"
  const TOO_MUCH := "more data than announced"
  const INCOMPLETE := "the file arrived incomplete"

  function Ack(n: Inbox, m: Message, error: string): Message {
    Message(TYPE_FILE_ACK, m.id, n.me, "", 0, "", "", m.origin, 0, error, NoBody)
  }

  /** An ack goes into the channel of the send it names, unless that is full or gone. */
  function TakeAck(n: Inbox, m: Message): Inbox {
    if m.id in n.acks && n.acks[m.id].None? then n.(acks := n.acks[m.id := Some(m.error)]) else n
  }

  /** The transfer ends badly: its writer is aborted and the user told. */
  function GiveUp(n: Inbox, id: string, h: F.Handle): Inbox {
    n.(disk := F.Abort(n.disk, h), incoming := n.incoming - {id}, told := n.told + multiset{h})
  }

  function OnStart(lib: Library, n: Inbox, m: Message, plain: Bytes, now: int, io: Io): (Inbox, seq<Message>, Option<Saved>) {
    if !n.receives then (n, [Ack(n, m, REFUSED)], None)
    else
      match lib.decode(plain)
      case None => (n, [Ack(n, m, BAD_HEADER)], None)
      case Some(meta) =>
        if meta.size < 0 then (n, [Ack(n, m, BAD_HEADER)], None)
        else
          match F.Begin(n.disk, io.temp, meta.name)
          case (disk, None) => (n.(disk := disk), [Ack(n, m, CANNOT_SAVE + io.why)], None)
          case (disk, Some(h)) =>
            (n.(disk := disk, incoming := n.incoming[m.id := Incoming(meta, m.origin, h, 0, 0, [], now)]), [], None)
  }

  function OnChunk(n: Inbox, m: Message, plain: Bytes, now: int, io: Io): (Inbox, seq<Message>, Option<Saved>) {
    if m.id !in n.incoming then (n, [], None)
    else
      var t := n.incoming[m.id];
      if m.seqNo != t.next then (GiveUp(n, m.id, t.writer), [Ack(n, m, OUT_OF_ORDER)], None)
      else if t.got + |plain| > t.meta.size then (GiveUp(n, m.id, t.writer), [Ack(n, m, TOO_MUCH)], None)
      else
        match F.Write(n.disk, t.writer, plain, io.short)
        case (disk, false) => (GiveUp(n.(disk := disk), m.id, t.writer), [Ack(n, m, CANNOT_WRITE + io.why)], None)
        case (disk, true) =>
          var t' := t.(next := t.next + 1, got := t.got + |plain|, fed := t.fed + plain, active := now);
          (n.(disk := disk, incoming := n.incoming[m.id := t']), [], None)
  }

  function OnEnd(lib: Library, n: Inbox, m: Message, plain: Bytes, io: Io): (Inbox, seq<Message>, Option<Saved>) {
    if m.id !in n.incoming then (n, [], None)
    else
      var t := n.incoming[m.id];
      if m.seqNo != t.next || t.got != t.meta.size || plain != lib.sum(t.fed) then
        (GiveUp(n, m.id, t.writer), [Ack(n, m, INCOMPLETE)], None)
      else
        var content := F.Written(n.disk, t.writer);
        var (disk, final) := F.Commit(n.disk, t.writer, io.closes, io.renames);
        var n' := n.(disk := disk, incoming := n.incoming - {m.id}, told := n.told + multiset{t.writer});
        if final.None? || content.None? then (n', [Ack(n, m, CANNOT_SAVE + io.why)], None)
        else (n', [Ack(n, m, "")], Some(Saved(m.id, final.value, content.value)))
  }

  /** handleFile: the device afterwards, the acks it sends, and the file it saved. */
  function Handle(lib: Library, n: Inbox, m: Message, now: int, io: Io): (Inbox, seq<Message>, Option<Saved>) {
    if m.to != n.me then (n, [], None)
    else if m.mtype == TYPE_FILE_ACK then (TakeAck(n, m), [], None)
    else
      match OpenFile(n.key, m)
      case None => (n, [], None)
      case Some(plain) =>
        if m.mtype == TYPE_FILE_START then OnStart(lib, n, m, plain, now, io)
        else if m.mtype == TYPE_FILE_CHUNK then OnChunk(n, m, plain, now, io)
        else if m.mtype == TYPE_FILE_END then OnEnd(lib, n, m, plain, io)
        else (n, [], None)
  }

  predicate Expired(t: Incoming, now: int) {
    now - t.active > IDLE_NANOS
  }

  function Abandoned(n: Inbox, now: int): set<string> {
    set id | id in n.incoming && Expired(n.incoming[id], now)
  }

  /** Abort every writer in `hs`. */
  function AbortAll(d: F.Disk, hs: set<F.Handle>): F.Disk {
    d.(files := d.files - (set h | h in hs && F.Open(d, h) :: d.writers[h].temp),
       writers := map h | h in d.writers :: if h in hs then d.writers[h].(done := true) else d.writers[h])
  }

  /** expireFiles: abort the transfers that went quiet and tell the user. */
  function Expire(n: Inbox, now: int): Inbox {
    var dead := Abandoned(n, now);
    var hs := set id | id in dead :: n.incoming[id].writer;
    n.(incoming := n.incoming - dead, disk := AbortAll(n.disk, hs),
       told := if n.receives then n.told + multiset(hs) else n.told)
  }

  // ---- The transfer lifecycle ----

  /** Every incoming transfer has an open writer of its own; a writer that has ended has
      been reported once, an open one not yet. */
  ghost predicate Booked(n: Inbox) {
    && F.Sound(n.disk)
    && (forall id | id in n.incoming :: F.Open(n.disk, n.incoming[id].writer))
    && (forall id, id' | id in n.incoming && id' in n.incoming && n.incoming[id].writer == n.incoming[id'].writer :: id == id')
    && (forall h :: n.told[h] == if h in n.disk.writers && !F.Open(n.disk, h) then 1 else 0)
    && (n.receives || n.incoming == map[])
  }

  /** An open writer that belongs to no incoming transfer. */
  ghost predicate Stray(n: Inbox, h: F.Handle) {
    F.Open(n.disk, h) && forall id | id in n.incoming :: n.incoming[id].writer != h
  }

  /** The incoming transfers are exactly the open writers, one each. */
  ghost predicate Lifecycle(n: Inbox) {
    Booked(n) && forall h :: !Stray(n, h)
  }
}
