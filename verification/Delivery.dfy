/** A file transfer from end to end. Any number of senders and receivers share a network
    that may lose, repeat, reorder, reroute and rewrite messages and inject forged ones;
    connections drop, receivers expire transfers, disks fail, hubs report failures. A
    sender that is told its file arrived can rely on it. */
module Delivery {
  import opened Basics
  import opened Wire
  import opened Transfer
  import F = Folder

  /** One SendFile call under way: how much of its script it has sent, and its result. */
  datatype Sending = Sending(job: Job, sent: nat, outcome: Option<bool>)

  /** `wire` is every message ever sent: anything in it may arrive at anyone at any time,
      any number of times, or never. `saved` is history. */
  datatype World = World(lib: Library, key: Key, boxes: map<string, Inbox>, jobs: map<string, Sending>,
                         wire: set<Message>, saved: set<(string, Saved)>)

  datatype Event =
    | Begins(job: Job)
    | SendsNext(id: string)
    | GivesUp(id: string)
    | Concludes(id: string)
    | Arrives(device: string, m: Message, now: int, io: Io)
    | Expires(device: string, now: int)
    | HubFails(id: string, to: string, reason: string)
    | Injected(m: Message)

  /** The reader gave exactly as many bytes as announced; otherwise no end is sent. */
  predicate Complete(job: Job) {
    |job.data| == job.meta.size
  }

  function Steps(lib: Library, job: Job): nat {
    if Complete(job) then |Script(lib, job)| else |Script(lib, job)| - 1
  }

  predicate Running(w: World, id: string) {
    && id in w.jobs && w.jobs[id].outcome.None? && w.jobs[id].job.me in w.boxes
    && id in w.boxes[w.jobs[id].job.me].acks
  }

  function Mail(w: World, id: string): Option<string>
    requires Running(w, id)
  {
    w.boxes[w.jobs[id].job.me].acks[id]
  }

  ghost predicate Enabled(w: World, e: Event) {
    match e
    case Begins(job) =>
      && job.id !in w.jobs && job.me in w.boxes && job.key == w.key && job.id !in w.boxes[job.me].acks
      && Plain(job.id) && Plain(job.me) && Plain(job.to)
    case SendsNext(id) => Running(w, id) && Mail(w, id).None? && w.jobs[id].sent < Steps(w.lib, w.jobs[id].job)
    case GivesUp(id) => Running(w, id)
    case Concludes(id) =>
      Running(w, id) && Mail(w, id).Some? && Complete(w.jobs[id].job) && w.jobs[id].sent == |Script(w.lib, w.jobs[id].job)|
    case Arrives(device, m, now, io) => device in w.boxes && m in w.wire
    case Expires(device, now) => device in w.boxes
    case HubFails(id, to, reason) => reason != ""
    case Injected(m) =>
      m.mtype != TYPE_FILE_ACK
      && (m.body.Sealed? && m.body.key == w.key ==> exists m0 :: m0 in w.wire && m0.body == m.body)
  }

  function Opened(n: Inbox, id: string): Inbox {
    n.(acks := n.acks[id := None])
  }

  function Closed(n: Inbox, id: string): Inbox {
    n.(acks := n.acks - {id})
  }

  function Ended(w: World, id: string, ok: bool): World
    requires Running(w, id)
  {
    var me := w.jobs[id].job.me;
    w.(jobs := w.jobs[id := w.jobs[id].(outcome := Some(ok))], boxes := w.boxes[me := Closed(w.boxes[me], id)])
  }

  function Next(w: World, e: Event): World
    requires Enabled(w, e)
  {
    match e
    case Begins(job) =>
      w.(jobs := w.jobs[job.id := Sending(job, 0, None)], boxes := w.boxes[job.me := Opened(w.boxes[job.me], job.id)])
    case SendsNext(id) =>
      var s := w.jobs[id];
      w.(jobs := w.jobs[id := s.(sent := s.sent + 1)], wire := w.wire + {Script(w.lib, s.job)[s.sent]})
    case GivesUp(id) => Ended(w, id, false)
    case Concludes(id) => Ended(w, id, Mail(w, id) == Some(""))
    case Arrives(device, m, now, io) =>
      var (n, replies, saved) := Handle(w.lib, w.boxes[device], m, now, io);
      w.(boxes := w.boxes[device := n], wire := w.wire + (set r | r in replies),
         saved := if saved.Some? then w.saved + {(device, saved.value)} else w.saved)
    case Expires(device, now) => w.(boxes := w.boxes[device := Expire(w.boxes[device], now)])
    case HubFails(id, to, reason) =>
      w.(wire := w.wire + {Message(TYPE_FILE_ACK, id, "", "", 0, "", "", to, 0, reason, NoBody)})
    case Injected(m) => w.(wire := w.wire + {m})
  }

  ghost predicate Runs(w: World, es: seq<Event>)
    decreases |es|
  {
    es == [] || (Enabled(w, es[0]) && Runs(Next(w, es[0]), es[1..]))
  }

  ghost function After(w: World, es: seq<Event>): World
    requires Runs(w, es)
    decreases |es|
  {
    if es == [] then w else After(Next(w, es[0]), es[1..])
  }

  /** Devices with nothing under way, and nothing sent yet. */
  ghost predicate Fresh(w: World) {
    && Ideal(w.lib) && w.jobs == map[] && w.wire == {} && w.saved == {}
    && forall d | d in w.boxes ::
      w.boxes[d].me == d && w.boxes[d].key == w.key && w.boxes[d].acks == map[] && w.boxes[d].incoming == map[]
      && F.Sound(w.boxes[d].disk)
  }

  // ---- Authentic messages ----

  /** `m` carries what some sender sealed as step k of its script. */
  predicate Scripted(lib: Library, jobs: map<string, Sending>, m: Message, id: string, k: nat) {
    id in jobs && k < jobs[id].sent && k < |Script(lib, jobs[id].job)| && m.body == Script(lib, jobs[id].job)[k].body
  }

  ghost predicate Authentic(lib: Library, key: Key, jobs: map<string, Sending>, m: Message) {
    m.body.Sealed? && m.body.key == key ==> exists id, k :: Scripted(lib, jobs, m, id, k)
  }

  ghost predicate JobsOk(key: Key, jobs: map<string, Sending>) {
    forall id | id in jobs ::
      && jobs[id].job.id == id && jobs[id].job.key == key
      && Plain(id) && Plain(jobs[id].job.me) && Plain(jobs[id].job.to)
  }

  /** A message that opens is, header and content, the script step it came from. */
  lemma OpenedIsScripted(lib: Library, key: Key, jobs: map<string, Sending>, m: Message) returns (id: string, k: nat)
    requires JobsOk(key, jobs) && Authentic(lib, key, jobs, m) && OpenFile(key, m).Some?
    ensures Scripted(lib, jobs, m, id, k)
    ensures var s := Script(lib, jobs[id].job)[k];
            m.mtype == s.mtype && m.id == id && m.origin == jobs[id].job.me && m.to == jobs[id].job.to && m.seqNo == s.seqNo && OpenFile(key, m) == OpenFile(key, s)
  {
    id, k :| Scripted(lib, jobs, m, id, k);
    var job := jobs[id].job;
    var s := Script(lib, job)[k];
    assert s == Seal(job, s.mtype, s.seqNo, s.body.plain);
    FileAadBindsHeader(s, m);
  }

  // ---- Receiving ----

  /** The transfer holds exactly the first chunks of the sender's file: that is what it
      has summed and what its writer has on disk, and no more than announced. */
  ghost predicate Tracks(jobs: map<string, Sending>, n: Inbox, id: string) {
    && id in jobs && id in n.incoming
    && var t := n.incoming[id];
       var job := jobs[id].job;
       && job.to == n.me && t.meta == job.meta
       && 0 <= t.next <= |Chunks(job.data)| && t.fed == Joined(Chunks(job.data)[..t.next])
       && t.got == |t.fed| <= t.meta.size && F.Written(n.disk, t.writer) == Some(t.fed)
  }

  ghost predicate BoxOk(jobs: map<string, Sending>, n: Inbox) {
    && F.Sound(n.disk)
    && (forall id | id in n.incoming :: Tracks(jobs, n, id))
    && (forall id, id' | id in n.incoming && id' in n.incoming && n.incoming[id].writer == n.incoming[id'].writer :: id == id')
  }

  /** What one writer does leaves what another has written alone. */
  lemma OthersUntouched(d: F.Disk, h: F.Handle, p: Bytes, io: Io, name: seq<Naming.Rune>)
    requires F.Sound(d)
    ensures forall k | k != h :: F.Written(d, k).Some? ==> F.Written(F.Write(d, h, p, io.short).0, k) == F.Written(d, k)
    ensures forall k | k != h :: F.Written(d, k).Some? ==> F.Written(F.Abort(d, h), k) == F.Written(d, k)
  {}

  lemma CommitLeavesOthers(d: F.Disk, h: F.Handle, closes: bool, renames: bool)
    requires F.Sound(d)
    ensures forall k | k != h :: F.Written(d, k).Some? ==> F.Written(F.Commit(d, h, closes, renames).0, k) == F.Written(d, k)
  {
    if F.Written(d, h).Some? { Naming.UniqueNameIsFree(d.files.Keys, d.writers[h].name); }
    hide Naming.UniqueName;
  }

  lemma BeginLeavesOthers(d: F.Disk, temp: Option<string>, name: seq<Naming.Rune>)
    requires F.Sound(d)
    ensures forall k :: F.Written(d, k).Some? ==> F.Written(F.Begin(d, temp, name).0, k) == F.Written(d, k)
    ensures var (d', h) := F.Begin(d, temp, name);
            h.Some? ==> F.Written(d', h.value) == Some([]) && F.Written(d, h.value).None?
  {
    hide Naming.SafeName;
  }

  lemma GiveUpKeeps(jobs: map<string, Sending>, n: Inbox, id: string)
    requires BoxOk(jobs, n) && id in n.incoming
    ensures BoxOk(jobs, GiveUp(n, id, n.incoming[id].writer))
  {
    var h := n.incoming[id].writer;
    F.AbortKeepsSound(n.disk, h);
    OthersUntouched(n.disk, h, [], Io(None, None, true, true, ""), []);
    hide F.Abort, F.Sound, F.Written;
    var n' := GiveUp(n, id, h);
    forall x | x in n'.incoming ensures Tracks(jobs, n', x) { assert Tracks(jobs, n, x); }
  }

  lemma TrackedIsWritten(jobs: map<string, Sending>, n: Inbox)
    requires BoxOk(jobs, n)
    ensures forall x | x in n.incoming :: F.Written(n.disk, n.incoming[x].writer).Some?
  {
    forall x | x in n.incoming ensures F.Written(n.disk, n.incoming[x].writer).Some? { assert Tracks(jobs, n, x); }
  }

  /** A transfer whose writer is new and empty enters the table. */
  lemma AddedKeeps(jobs: map<string, Sending>, n: Inbox, id: string, h: F.Handle, now: int, disk: F.Disk)
    requires BoxOk(jobs, n) && id in jobs && jobs[id].job.to == n.me && jobs[id].job.meta.size >= 0 && F.Sound(disk)
    requires forall k :: F.Written(n.disk, k).Some? ==> F.Written(disk, k) == F.Written(n.disk, k)
    requires F.Written(disk, h) == Some([]) && F.Written(n.disk, h).None?
    ensures BoxOk(jobs, n.(disk := disk, incoming := n.incoming[id := Incoming(jobs[id].job.meta, jobs[id].job.me, h, 0, 0, [], now)]))
  {
    TrackedIsWritten(jobs, n);
    hide F.Sound, F.Written, Chunks;
    var n' := n.(disk := disk, incoming := n.incoming[id := Incoming(jobs[id].job.meta, jobs[id].job.me, h, 0, 0, [], now)]);
    assert Chunks(jobs[id].job.data)[..0] == [];
    forall x | x in n'.incoming ensures Tracks(jobs, n', x) {
      if x != id { assert Tracks(jobs, n, x); }
    }
  }

  lemma StartKeeps(lib: Library, jobs: map<string, Sending>, n: Inbox, m: Message, plain: Bytes, now: int, io: Io)
    requires BoxOk(jobs, n) && m.id in jobs && jobs[m.id].job.to == n.me && m.origin == jobs[m.id].job.me
    requires lib.decode(plain) == Some(jobs[m.id].job.meta)
    ensures BoxOk(jobs, OnStart(lib, n, m, plain, now, io).0)
  {
    var meta := jobs[m.id].job.meta;
    F.BeginKeepsSound(n.disk, io.temp, meta.name);
    BeginLeavesOthers(n.disk, io.temp, meta.name);
    BeginNothing(n.disk, io.temp, meta.name);
    hide F.Begin, F.Sound, F.Written;
    var (disk, h) := F.Begin(n.disk, io.temp, meta.name);
    if h.Some? && meta.size >= 0 { AddedKeeps(jobs, n, m.id, h.value, now, disk); }
    hide BoxOk;
  }

  lemma BeginNothing(d: F.Disk, temp: Option<string>, name: seq<Naming.Rune>)
    ensures F.Begin(d, temp, name).1.None? ==> F.Begin(d, temp, name).0 == d
  {}

  lemma WriteAppends(d: F.Disk, h: F.Handle, p: Bytes, short: Option<nat>)
    requires F.Written(d, h).Some?
    ensures var (d', ok) := F.Write(d, h, p, short); ok ==> F.Written(d', h) == Some(F.Written(d, h).value + p)
    ensures F.Written(F.Write(d, h, p, short).0, h).Some?
  {}

  lemma JoinedNext(cs: seq<Bytes>, k: nat)
    requires k < |cs|
    ensures Joined(cs[..k + 1]) == Joined(cs[..k]) + cs[k]
  {
    assert cs[..k + 1][..k] == cs[..k];
  }

  /** An accepted chunk extends what its transfer holds by exactly the next block. */
  lemma ChunkExtends(jobs: map<string, Sending>, n: Inbox, m: Message, plain: Bytes, now: int, io: Io)
    requires m.id in n.incoming && Tracks(jobs, n, m.id) && m.seqNo == n.incoming[m.id].next
    requires 0 <= m.seqNo < |Chunks(jobs[m.id].job.data)| && plain == Chunks(jobs[m.id].job.data)[m.seqNo]
    requires n.incoming[m.id].got + |plain| <= n.incoming[m.id].meta.size
    requires F.Write(n.disk, n.incoming[m.id].writer, plain, io.short).1
    ensures m.id in OnChunk(n, m, plain, now, io).0.incoming && Tracks(jobs, OnChunk(n, m, plain, now, io).0, m.id)
  {
    hide F.Write, F.Sound, F.Written, Joined, Chunks;
    var t := n.incoming[m.id];
    WriteAppends(n.disk, t.writer, plain, io.short);
    JoinedNext(Chunks(jobs[m.id].job.data), t.next);
  }

  lemma ChunkAccepted(jobs: map<string, Sending>, n: Inbox, m: Message, plain: Bytes, now: int, io: Io)
    requires BoxOk(jobs, n) && m.id in n.incoming && m.seqNo == n.incoming[m.id].next
    requires 0 <= m.seqNo < |Chunks(jobs[m.id].job.data)| && plain == Chunks(jobs[m.id].job.data)[m.seqNo]
    requires n.incoming[m.id].got + |plain| <= n.incoming[m.id].meta.size
    requires F.Write(n.disk, n.incoming[m.id].writer, plain, io.short).1
    ensures BoxOk(jobs, OnChunk(n, m, plain, now, io).0)
  {
    hide F.Write, F.Sound, F.Written, Joined, Chunks;
    var t := n.incoming[m.id];
    F.WriteKeepsSound(n.disk, t.writer, plain, io.short);
    OthersUntouched(n.disk, t.writer, plain, io, []);
    ChunkExtends(jobs, n, m, plain, now, io);
    var n' := OnChunk(n, m, plain, now, io).0;
    forall x | x in n'.incoming ensures Tracks(jobs, n', x) {
      if x != m.id { assert Tracks(jobs, n, x); }
    }
  }

  /** Another transfer is given up after a failed write. */
  lemma FailedWriteKeeps(jobs: map<string, Sending>, n: Inbox, id: string, p: Bytes, io: Io)
    requires BoxOk(jobs, n) && id in n.incoming
    ensures BoxOk(jobs, GiveUp(n.(disk := F.Write(n.disk, n.incoming[id].writer, p, io.short).0), id, n.incoming[id].writer))
  {
    var h := n.incoming[id].writer;
    var d := F.Write(n.disk, h, p, io.short).0;
    F.WriteKeepsSound(n.disk, h, p, io.short);
    OthersUntouched(n.disk, h, p, io, []);
    F.AbortKeepsSound(d, h);
    OthersUntouched(d, h, p, io, []);
    hide F.Write, F.Abort, F.Sound, F.Written;
    var n' := GiveUp(n.(disk := d), id, h);
    forall x | x in n'.incoming ensures Tracks(jobs, n', x) { assert Tracks(jobs, n, x); }
  }

  lemma ChunkKeeps(jobs: map<string, Sending>, n: Inbox, m: Message, plain: Bytes, now: int, io: Io)
    requires BoxOk(jobs, n) && m.id in jobs
    requires 0 <= m.seqNo < |Chunks(jobs[m.id].job.data)| && plain == Chunks(jobs[m.id].job.data)[m.seqNo]
    ensures BoxOk(jobs, OnChunk(n, m, plain, now, io).0)
  {
    hide BoxOk, F.Write, Chunks, GiveUp;
    if m.id in n.incoming {
      var t := n.incoming[m.id];
      GiveUpKeeps(jobs, n, m.id);
      FailedWriteKeeps(jobs, n, m.id, plain, io);
      if m.seqNo == t.next && t.got + |plain| <= t.meta.size && F.Write(n.disk, t.writer, plain, io.short).1 {
        ChunkAccepted(jobs, n, m, plain, now, io);
      }
    }
  }

  /** The other transfers, once one has been committed or not. */
  lemma CommittedKeeps(jobs: map<string, Sending>, n: Inbox, id: string, io: Io)
    requires BoxOk(jobs, n) && id in n.incoming
    ensures BoxOk(jobs, n.(disk := F.Commit(n.disk, n.incoming[id].writer, io.closes, io.renames).0, incoming := n.incoming - {id}))
  {
    var h := n.incoming[id].writer;
    F.CommitKeepsSound(n.disk, h, io.closes, io.renames);
    CommitLeavesOthers(n.disk, h, io.closes, io.renames);
    hide F.Commit, F.Sound, F.Written, Joined, Chunks;
    var n2 := n.(disk := F.Commit(n.disk, h, io.closes, io.renames).0, incoming := n.incoming - {id});
    forall x | x in n2.incoming ensures Tracks(jobs, n2, x) { assert Tracks(jobs, n, x); }
  }

  /** A file is committed only when it is the whole of what the sender read. */
  lemma EndKeeps(lib: Library, jobs: map<string, Sending>, n: Inbox, m: Message, plain: Bytes, io: Io)
    requires Ideal(lib) && BoxOk(jobs, n) && m.id in jobs && plain == lib.sum(jobs[m.id].job.data)
    ensures var (n', replies, saved) := OnEnd(lib, n, m, plain, io);
            && BoxOk(jobs, n')
            && (saved.Some? ==> saved.value.id == m.id && saved.value.content == jobs[m.id].job.data && jobs[m.id].job.to == n.me)
            && ((exists r :: r in replies && r.error == "") ==> saved.Some?)
  {
    if m.id in n.incoming {
      var t := n.incoming[m.id];
      assert Tracks(jobs, n, m.id);
      GiveUpKeeps(jobs, n, m.id);
      hide F.Commit, F.Sound, F.Written, GiveUp, Joined, Chunks;
      var (n', replies, saved) := OnEnd(lib, n, m, plain, io);
      if plain == lib.sum(t.fed) {
        assert t.fed == jobs[m.id].job.data;
        CommittedKeeps(jobs, n, m.id, io);
        hide BoxOk, Tracks;
      }
    }
  }

  /** Step k of a script, opened. */
  lemma ScriptStep(lib: Library, job: Job, k: nat)
    requires k < |Script(lib, job)|
    ensures var s := Script(lib, job)[k];
            var p := OpenFile(job.key, s);
            && p.Some?
            && (s.mtype == TYPE_FILE_START <==> k == 0)
            && (s.mtype == TYPE_FILE_END <==> k == |Chunks(job.data)| + 1)
            && s.mtype in {TYPE_FILE_START, TYPE_FILE_CHUNK, TYPE_FILE_END}
            && (k == 0 ==> p.value == lib.encode(job.meta))
            && (1 <= k <= |Chunks(job.data)| ==> s.mtype == TYPE_FILE_CHUNK && s.seqNo == k - 1 && p.value == Chunks(job.data)[k - 1])
            && (k == |Chunks(job.data)| + 1 ==> p.value == lib.sum(job.data))
  {
    hide Join5, FormatInt;
    KindsDiffer();
    var s := Script(lib, job)[k];
    if k == 0 { assert s == StartOf(lib, job); }
    else if k <= |Chunks(job.data)| { assert s == ChunkOf(job, k - 1); }
    else { assert s == EndOf(lib, job); }
  }

  lemma KindsDiffer()
    ensures TYPE_FILE_START != TYPE_FILE_CHUNK && TYPE_FILE_CHUNK != TYPE_FILE_END && TYPE_FILE_START != TYPE_FILE_END
    ensures TYPE_FILE_ACK !in {TYPE_FILE_START, TYPE_FILE_CHUNK, TYPE_FILE_END}
  {
    assert |TYPE_FILE_START| == |TYPE_FILE_CHUNK| == 10 && |TYPE_FILE_END| == |TYPE_FILE_ACK| == 8;
    assert TYPE_FILE_START[5] == 's' && TYPE_FILE_CHUNK[5] == 'c' && TYPE_FILE_END[5] == 'e' && TYPE_FILE_ACK[5] == 'a';
  }

  /** Whatever arrives, a device's table stays true to the senders, and it acknowledges
      success only for a file it has just saved whole. */
  lemma HandleKeeps(lib: Library, key: Key, jobs: map<string, Sending>, n: Inbox, m: Message, now: int, io: Io)
    requires Ideal(lib) && JobsOk(key, jobs) && BoxOk(jobs, n) && n.key == key && Authentic(lib, key, jobs, m)
    ensures var (n', replies, saved) := Handle(lib, n, m, now, io);
            && BoxOk(jobs, n') && n'.me == n.me && n'.key == n.key
            && (saved.Some? ==> saved.value.id == m.id && m.id in jobs && saved.value.content == jobs[m.id].job.data
                                && jobs[m.id].job.to == n.me)
            && (forall r | r in replies :: r.mtype == TYPE_FILE_ACK && r.body == NoBody && r.id == m.id && (r.error == "" ==> saved.Some?))
            && (m.mtype != TYPE_FILE_ACK ==> n'.acks == n.acks)
  {
    KindsDiffer();
    hide BoxOk, Ideal, JobsOk, Authentic, OnStart, OnChunk, OnEnd, Script;
    RepliesAreAcks(lib, n, m, now, io);
    if m.to == n.me && m.mtype == TYPE_FILE_ACK {
      AckKeeps(jobs, n, m);
    } else if m.to == n.me && OpenFile(key, m).Some? {
      var id, k := OpenedIsScripted(lib, key, jobs, m);
      JobHasKey(key, jobs, id);
      var job := jobs[id].job;
      ScriptStep(lib, job, k);
      var plain := OpenFile(key, m).value;
      if m.mtype == TYPE_FILE_START {
        assert lib.decode(plain) == Some(job.meta) by { DecodeEncode(lib, job.meta); }
        StartKeeps(lib, jobs, n, m, plain, now, io);
      } else if m.mtype == TYPE_FILE_CHUNK {
        ChunkKeeps(jobs, n, m, plain, now, io);
      } else {
        EndKeeps(lib, jobs, n, m, plain, io);
      }
    }
  }

  lemma DecodeEncode(lib: Library, meta: Meta)
    requires Ideal(lib)
    ensures lib.decode(lib.encode(meta)) == Some(meta)
  {}

  lemma JobHasKey(key: Key, jobs: map<string, Sending>, id: string)
    requires JobsOk(key, jobs) && id in jobs
    ensures jobs[id].job.key == key && jobs[id].job.id == id
  {}

  lemma AckKeeps(jobs: map<string, Sending>, n: Inbox, m: Message)
    requires BoxOk(jobs, n)
    ensures BoxOk(jobs, TakeAck(n, m))
  {
    forall x | x in TakeAck(n, m).incoming ensures Tracks(jobs, TakeAck(n, m), x) { assert Tracks(jobs, n, x); }
  }

  /** Replies are acks to the message's sender; failure acks are never empty. */
  lemma RepliesAreAcks(lib: Library, n: Inbox, m: Message, now: int, io: Io)
    ensures var (n', replies, saved) := Handle(lib, n, m, now, io);
            && (forall r | r in replies :: r.mtype == TYPE_FILE_ACK && r.body == NoBody && r.id == m.id && r.origin == n.me)
            && (forall r | r in replies :: r.error == "" ==> saved.Some?)
            && (saved.Some? ==> m.mtype == TYPE_FILE_END)
            && n'.me == n.me && n'.key == n.key && (m.mtype != TYPE_FILE_ACK ==> n'.acks == n.acks)
  {
    KindsDiffer();
    hide F.Begin, F.Write, F.Commit, F.Abort, F.Written;
  }

  // ---- The invariant of the whole network ----

  /** The target of job `id` has saved exactly the sender's bytes. */
  ghost predicate Arrived(w: World, id: string) {
    id in w.jobs && exists s :: (w.jobs[id].job.to, s) in w.saved && s.id == id && s.content == w.jobs[id].job.data
  }

  ghost predicate Boxes(w: World) {
    forall d | d in w.boxes :: w.boxes[d].me == d && w.boxes[d].key == w.key && BoxOk(w.jobs, w.boxes[d])
  }

  ghost predicate Wires(w: World) {
    && (forall m | m in w.wire :: Authentic(w.lib, w.key, w.jobs, m))
    && (forall m | m in w.wire && m.mtype == TYPE_FILE_ACK && m.error == "" && m.id in w.jobs :: Arrived(w, m.id))
    && (forall m | m in w.wire && m.mtype == TYPE_FILE_ACK && m.error == "" :: m.id in w.jobs)
  }

  ghost predicate Mails(w: World) {
    forall d, id | d in w.boxes && id in w.boxes[d].acks && w.boxes[d].acks[id] == Some("") :: Arrived(w, id)
  }

  ghost predicate Outcomes(w: World) {
    forall id | id in w.jobs && w.jobs[id].outcome == Some(true) :: Arrived(w, id)
  }

  ghost predicate Inv(w: World) {
    Ideal(w.lib) && JobsOk(w.key, w.jobs) && Boxes(w) && Wires(w) && Mails(w) && Outcomes(w)
  }

  /** Jobs only progress and saved files stay on record. */
  ghost predicate Grows(w: World, w': World) {
    && w'.lib == w.lib && w'.key == w.key && w.saved <= w'.saved
    && forall id | id in w.jobs :: id in w'.jobs && w'.jobs[id].job == w.jobs[id].job && w.jobs[id].sent <= w'.jobs[id].sent
  }

  lemma ArrivedStays(w: World, w': World)
    requires Grows(w, w')
    ensures forall id | Arrived(w, id) :: Arrived(w', id)
  {
    forall id | Arrived(w, id) ensures Arrived(w', id) {
      var s :| (w.jobs[id].job.to, s) in w.saved && s.id == id && s.content == w.jobs[id].job.data;
      assert (w'.jobs[id].job.to, s) in w'.saved;
    }
  }

  lemma AuthenticStays(w: World, w': World)
    requires Grows(w, w')
    ensures forall m | Authentic(w.lib, w.key, w.jobs, m) :: Authentic(w.lib, w.key, w'.jobs, m)
  {
    forall m | Authentic(w.lib, w.key, w.jobs, m) ensures Authentic(w.lib, w.key, w'.jobs, m) {
      if m.body.Sealed? && m.body.key == w.key {
        var id, k :| Scripted(w.lib, w.jobs, m, id, k);
        assert Scripted(w.lib, w'.jobs, m, id, k);
      }
    }
  }

  lemma BoxStays(w: World, w': World, n: Inbox)
    requires Grows(w, w') && BoxOk(w.jobs, n)
    ensures BoxOk(w'.jobs, n)
  {
    forall x | x in n.incoming ensures Tracks(w'.jobs, n, x) { assert Tracks(w.jobs, n, x); }
  }

  /** Changing only the channels of a device. */
  lemma ChannelsKeep(jobs: map<string, Sending>, n: Inbox, acks: map<string, Option<string>>)
    requires BoxOk(jobs, n)
    ensures BoxOk(jobs, n.(acks := acks))
  {
    var n' := n.(acks := acks);
    forall x | x in n'.incoming ensures Tracks(jobs, n', x) { assert Tracks(jobs, n, x); }
  }

  lemma BoxesStay(w: World, w': World)
    requires Boxes(w) && Grows(w, w') && w'.boxes.Keys == w.boxes.Keys
    requires forall d | d in w.boxes :: w'.boxes[d] == w.boxes[d].(acks := w'.boxes[d].acks)
    ensures Boxes(w')
  {
    forall d | d in w'.boxes ensures w'.boxes[d].me == d && w'.boxes[d].key == w'.key && BoxOk(w'.jobs, w'.boxes[d]) {
      ChannelsKeep(w.jobs, w.boxes[d], w'.boxes[d].acks);
      BoxStays(w, w', w'.boxes[d]);
    }
  }

  lemma WiresStay(w: World, w': World)
    requires Wires(w) && Grows(w, w')
    requires forall m | m in w'.wire && m !in w.wire ::
               Authentic(w.lib, w.key, w'.jobs, m)
               && (m.mtype == TYPE_FILE_ACK && m.error == "" ==> m.id in w.jobs && Arrived(w', m.id))
    ensures Wires(w')
  {
    ArrivedStays(w, w');
    AuthenticStays(w, w');
    forall m | m in w'.wire && m.mtype == TYPE_FILE_ACK && m.error == "" && m.id in w'.jobs ensures Arrived(w', m.id) {
      if m in w.wire { assert Arrived(w, m.id); }
    }
  }

  lemma MailsStay(w: World, w': World)
    requires Mails(w) && Grows(w, w')
    requires forall d, id | d in w'.boxes && id in w'.boxes[d].acks && w'.boxes[d].acks[id] == Some("") ::
               Arrived(w', id) || (d in w.boxes && id in w.boxes[d].acks && w.boxes[d].acks[id] == Some(""))
    ensures Mails(w')
  {
    ArrivedStays(w, w');
    forall d, id | d in w'.boxes && id in w'.boxes[d].acks && w'.boxes[d].acks[id] == Some("")
      ensures Arrived(w', id)
    {
      if d in w.boxes && id in w.boxes[d].acks && w.boxes[d].acks[id] == Some("") { assert Arrived(w, id); }
    }
  }

  lemma OutcomesStay(w: World, w': World)
    requires Outcomes(w) && Grows(w, w')
    requires forall id | id in w'.jobs && w'.jobs[id].outcome == Some(true) ::
               Arrived(w', id) || (id in w.jobs && w.jobs[id].outcome == Some(true))
    ensures Outcomes(w')
  {
    ArrivedStays(w, w');
  }

  // ---- Every step ----

  lemma BeginKeeps(w: World, job: Job)
    requires Inv(w) && Enabled(w, Begins(job))
    ensures Inv(Next(w, Begins(job)))
  {
    hide Boxes, Wires, Mails, Outcomes;
    var w' := Next(w, Begins(job));
    assert Grows(w, w') && JobsOk(w'.key, w'.jobs);
    BoxesStay(w, w');
    WiresStay(w, w');
    MailsStay(w, w');
    OutcomesStay(w, w');
  }

  lemma EndingKeeps(w: World, id: string, ok: bool)
    requires Inv(w) && Running(w, id) && (ok ==> Arrived(w, id))
    ensures Inv(Ended(w, id, ok))
  {
    hide Boxes, Wires, Mails, Outcomes;
    var w' := Ended(w, id, ok);
    assert Grows(w, w') && JobsOk(w'.key, w'.jobs);
    ArrivedStays(w, w');
    BoxesStay(w, w');
    WiresStay(w, w');
    MailsStay(w, w');
    OutcomesStay(w, w');
  }

  lemma ConcludeKeeps(w: World, id: string)
    requires Inv(w) && Enabled(w, Concludes(id))
    ensures Inv(Next(w, Concludes(id)))
  {
    assert Mail(w, id) == Some("") ==> Arrived(w, id);
    hide Inv;
    EndingKeeps(w, id, Mail(w, id) == Some(""));
  }

  lemma SendKeeps(w: World, id: string)
    requires Inv(w) && Enabled(w, SendsNext(id))
    ensures Inv(Next(w, SendsNext(id)))
  {
    hide Boxes, Wires, Mails, Outcomes, Script;
    var w' := Next(w, SendsNext(id));
    var k := w.jobs[id].sent;
    var m := Script(w.lib, w.jobs[id].job)[k];
    ScriptStep(w.lib, w.jobs[id].job, k);
    KindsDiffer();
    assert Grows(w, w') && JobsOk(w'.key, w'.jobs);
    assert Scripted(w.lib, w'.jobs, m, id, k);
    BoxesStay(w, w');
    WiresStay(w, w');
    MailsStay(w, w');
    OutcomesStay(w, w');
  }

  lemma WireKeeps(w: World, m: Message)
    requires Inv(w) && Authentic(w.lib, w.key, w.jobs, m) && (m.mtype == TYPE_FILE_ACK ==> m.error != "")
    ensures Inv(w.(wire := w.wire + {m}))
  {
    hide Boxes, Wires, Mails, Outcomes;
    var w' := w.(wire := w.wire + {m});
    BoxesStay(w, w');
    WiresStay(w, w');
    MailsStay(w, w');
    OutcomesStay(w, w');
  }

  lemma InjectKeeps(w: World, m: Message)
    requires Inv(w) && Enabled(w, Injected(m))
    ensures Inv(Next(w, Injected(m)))
  {
    if m.body.Sealed? && m.body.key == w.key {
      var m0 :| m0 in w.wire && m0.body == m.body;
      assert Authentic(w.lib, w.key, w.jobs, m0);
      var id, k :| Scripted(w.lib, w.jobs, m0, id, k);
      assert Scripted(w.lib, w.jobs, m, id, k);
    }
    hide Inv;
    WireKeeps(w, m);
  }

  lemma ArriveFacts(w: World, device: string, m: Message)
    requires Inv(w) && device in w.boxes && m in w.wire
    ensures w.boxes[device].me == device && w.boxes[device].key == w.key && BoxOk(w.jobs, w.boxes[device])
    ensures Authentic(w.lib, w.key, w.jobs, m)
    ensures m.mtype == TYPE_FILE_ACK && m.error == "" ==> Arrived(w, m.id)
  {
    hide Mails, Outcomes, BoxOk, Authentic;
  }

  lemma ArriveKeeps(w: World, device: string, m: Message, now: int, io: Io)
    requires Inv(w) && Enabled(w, Arrives(device, m, now, io))
    ensures Inv(Next(w, Arrives(device, m, now, io)))
  {
    hide Boxes, Wires, Mails, Outcomes, BoxOk, Authentic, JobsOk, Ideal;
    var w' := Next(w, Arrives(device, m, now, io));
    ArriveFacts(w, device, m);
    HandleKeeps(w.lib, w.key, w.jobs, w.boxes[device], m, now, io);
    AcksAfter(w.lib, w.boxes[device], m, now, io);
    hide Handle;
    var (n, replies, saved) := Handle(w.lib, w.boxes[device], m, now, io);
    assert Grows(w, w');
    ArrivedStays(w, w');
    if saved.Some? { assert (w.jobs[m.id].job.to, saved.value) in w'.saved; assert Arrived(w', m.id); }
    ArriveBoxes(w, device, w');
    forall r | r in w'.wire && r !in w.wire
      ensures Authentic(w.lib, w.key, w'.jobs, r) && (r.mtype == TYPE_FILE_ACK && r.error == "" ==> r.id in w.jobs && Arrived(w', r.id))
    {
      assert r in replies;
      NoBodyIsAuthentic(w.lib, w.key, w'.jobs, r);
    }
    WiresStay(w, w');
    MailsStay(w, w');
    OutcomesStay(w, w');
  }

  lemma NoBodyIsAuthentic(lib: Library, key: Key, jobs: map<string, Sending>, m: Message)
    requires m.body == NoBody
    ensures Authentic(lib, key, jobs, m)
  {}

  lemma ArriveBoxes(w: World, device: string, w': World)
    requires Boxes(w) && device in w.boxes && w'.boxes.Keys == w.boxes.Keys && w'.jobs == w.jobs && w'.key == w.key
    requires forall d | d in w.boxes && d != device :: w'.boxes[d] == w.boxes[d]
    requires w'.boxes[device].me == device && w'.boxes[device].key == w.key && BoxOk(w.jobs, w'.boxes[device])
    ensures Boxes(w')
  {
    hide BoxOk;
  }

  /** A channel holds an ack only because that very ack arrived. */
  lemma AcksAfter(lib: Library, n: Inbox, m: Message, now: int, io: Io)
    ensures var n' := Handle(lib, n, m, now, io).0;
            forall id | id in n'.acks && n'.acks[id].Some? ::
              (id in n.acks && n.acks[id] == n'.acks[id]) || (m.mtype == TYPE_FILE_ACK && id == m.id && n'.acks[id] == Some(m.error))
  {
    RepliesAreAcks(lib, n, m, now, io);
    hide OnStart, OnChunk, OnEnd;
  }

  lemma AbortAllKeepsOthers(d: F.Disk, hs: set<F.Handle>)
    requires F.Sound(d)
    ensures F.Sound(AbortAll(d, hs))
    ensures forall h | h !in hs && F.Written(d, h).Some? :: F.Written(AbortAll(d, hs), h) == F.Written(d, h)
  {}

  lemma ExpiredBox(jobs: map<string, Sending>, n: Inbox, now: int)
    requires BoxOk(jobs, n)
    ensures BoxOk(jobs, Expire(n, now))
  {
    var n' := Expire(n, now);
    AbortAllKeepsOthers(n.disk, set id | id in Abandoned(n, now) :: n.incoming[id].writer);
    hide F.Sound, F.Written, AbortAll, Chunks, Joined;
    forall x | x in n'.incoming ensures Tracks(jobs, n', x) {
      assert Tracks(jobs, n, x);
      var h := n.incoming[x].writer;
      assert forall y | y in Abandoned(n, now) :: n.incoming[y].writer != h;
    }
  }

  lemma ExpireShape(n: Inbox, now: int)
    ensures var n' := Expire(n, now); n'.me == n.me && n'.key == n.key && n'.acks == n.acks
  {}

  lemma ExpireKeeps(w: World, device: string, now: int)
    requires Inv(w) && device in w.boxes
    ensures Inv(Next(w, Expires(device, now)))
  {
    assert BoxOk(w.jobs, w.boxes[device]);
    ExpireShape(w.boxes[device], now);
    hide Boxes, Wires, Mails, Outcomes, BoxOk, Expire, JobsOk;
    var w' := Next(w, Expires(device, now));
    ExpiredBox(w.jobs, w.boxes[device], now);
    BoxIsNamed(w, device);
    ArriveBoxes(w, device, w');
    WiresStay(w, w');
    MailsStay(w, w');
    OutcomesStay(w, w');
  }

  lemma BoxIsNamed(w: World, device: string)
    requires Boxes(w) && device in w.boxes
    ensures w.boxes[device].me == device && w.boxes[device].key == w.key
  {}

  lemma StepKeeps(w: World, e: Event)
    requires Inv(w) && Enabled(w, e)
    ensures Inv(Next(w, e))
  {
    hide Inv;
    match e
    case Begins(job) => BeginKeeps(w, job);
    case SendsNext(id) => SendKeeps(w, id);
    case GivesUp(id) => EndingKeeps(w, id, false);
    case Concludes(id) => ConcludeKeeps(w, id);
    case Arrives(device, m, now, io) => ArriveKeeps(w, device, m, now, io);
    case Expires(device, now) => ExpireKeeps(w, device, now);
    case HubFails(id, to, reason) =>
      WireKeeps(w, Message(TYPE_FILE_ACK, id, "", "", 0, "", "", to, 0, reason, NoBody));
    case Injected(m) => InjectKeeps(w, m);
  }

  lemma {:induction false} RunKeeps(w: World, es: seq<Event>)
    requires Inv(w) && Runs(w, es)
    ensures Inv(After(w, es))
    decreases |es|
  {
    hide Inv, Next, Enabled;
    if es != [] {
      StepKeeps(w, es[0]);
      RunKeeps(Next(w, es[0]), es[1..]);
    }
  }

  lemma FreshInv(w: World)
    requires Fresh(w)
    ensures Inv(w)
  {}

  // ---- The claims ----

  /** If SendFile returns without an error, the device it was sent to has saved exactly
      the bytes the sender read, whatever the network, the hub, the disks and every
      other transfer did meanwhile. */
  lemma SuccessMeansDelivered(w0: World, es: seq<Event>, id: string)
    requires Fresh(w0) && Runs(w0, es)
    ensures var w := After(w0, es);
            id in w.jobs && w.jobs[id].outcome == Some(true) ==> Arrived(w, id)
  {
    hide Boxes, Wires, Mails, JobsOk, Fresh;
    FreshInv(w0);
    RunKeeps(w0, es);
  }

  /** At every moment of every run, what a device has written for a transfer is exactly
      the sender's first chunks, in order and never more than announced. */
  lemma ReceivedIsPrefix(w0: World, es: seq<Event>, device: string, id: string)
    requires Fresh(w0) && Runs(w0, es)
    ensures var w := After(w0, es);
            device in w.boxes && id in w.boxes[device].incoming ==>
              && id in w.jobs && w.jobs[id].job.to == device
              && var t := w.boxes[device].incoming[id];
                 && 0 <= t.next <= |Chunks(w.jobs[id].job.data)|
                 && F.Written(w.boxes[device].disk, t.writer) == Some(Joined(Chunks(w.jobs[id].job.data)[..t.next]))
                 && t.got == |Joined(Chunks(w.jobs[id].job.data)[..t.next])| <= w.jobs[id].job.meta.size
  {
    hide Wires, Mails, Outcomes, JobsOk, Fresh;
    FreshInv(w0);
    RunKeeps(w0, es);
    var w := After(w0, es);
    if device in w.boxes && id in w.boxes[device].incoming {
      assert BoxOk(w.jobs, w.boxes[device]);
      assert Tracks(w.jobs, w.boxes[device], id);
    }
  }
}
