/** The file half of a device as it runs: the sender's loop, the handler that changes the
    table of incoming transfers in place, and expiry (internal/node/files.go; the Kotlin
    sender is android core/Node.kt). */
module FileNode {
  import opened Basics
  import opened Wire
  import opened Transfer
  import F = Folder

  class Files {
    const me: string
    const key: Key
    const receives: bool
    const lib: Library
    const folder: F.Directory
    var acks: map<string, Option<string>>
    var incoming: map<string, Incoming>
    ghost var told: multiset<F.Handle>

    constructor (me: string, key: Key, receives: bool, lib: Library, folder: F.Directory)
      ensures this.folder == folder && this.lib == lib && this.me == me && this.key == key && this.receives == receives
      ensures acks == map[] && incoming == map[] && told == multiset{}
    {
      this.me, this.key, this.receives, this.lib, this.folder := me, key, receives, lib, folder;
      acks, incoming, told := map[], map[], multiset{};
    }

    ghost function State(): Inbox
      reads this, folder
    {
      Inbox(me, key, receives, acks, incoming, folder.State(), told)
    }

    ghost predicate Valid()
      reads this, folder
    {
      F.Sound(folder.State())
    }

    /** The transfer ends badly. */
    method Fail(id: string, h: F.Handle)
      requires Valid()
      modifies this`incoming, this`told, folder
      ensures Valid() && State() == GiveUp(old(State()), id, h)
    {
      F.AbortKeepsSound(folder.State(), h);
      folder.AbortFile(h);
      incoming := incoming - {id};
      told := told + multiset{h};
    }

    method HandleStart(m: Message, plain: Bytes, now: int, io: Io) returns (reply: Option<string>)
      requires Valid()
      modifies this`incoming, folder
      ensures Valid()
      ensures var (n, replies, saved) := OnStart(lib, old(State()), m, plain, now, io);
              State() == n && saved == None && replies == if reply.None? then [] else [Ack(old(State()), m, reply.value)]
    {
      hide F.Begin;
      if !receives {
        return Some(REFUSED);
      }
      var meta := lib.decode(plain);
      if meta.None? || meta.value.size < 0 {
        return Some(BAD_HEADER);
      }
      F.BeginKeepsSound(folder.State(), io.temp, meta.value.name);
      var w := folder.BeginFile(io.temp, meta.value.name);
      if w.None? {
        return Some(CANNOT_SAVE + io.why);
      }
      incoming := incoming[m.id := Incoming(meta.value, m.origin, w.value, 0, 0, [], now)];
      reply := None;
    }

    method HandleChunk(m: Message, plain: Bytes, now: int, io: Io) returns (reply: Option<string>)
      requires Valid()
      modifies this`incoming, this`told, folder
      ensures Valid()
      ensures var (n, replies, saved) := OnChunk(old(State()), m, plain, now, io);
              State() == n && saved == None && replies == if reply.None? then [] else [Ack(old(State()), m, reply.value)]
    {
      hide F.Write, F.Abort;
      if m.id !in incoming {
        return None;
      }
      var t := incoming[m.id];
      if m.seqNo != t.next {
        Fail(m.id, t.writer);
        return Some(OUT_OF_ORDER);
      }
      t := t.(next := t.next + 1, got := t.got + |plain|, active := now);
      if t.got > t.meta.size {
        Fail(m.id, t.writer);
        return Some(TOO_MUCH);
      }
      t := t.(fed := t.fed + plain);
      var ok := folder.WriteFile(t.writer, plain, io.short);
      if !ok {
        Fail(m.id, t.writer);
        return Some(CANNOT_WRITE + io.why);
      }
      incoming := incoming[m.id := t];
      reply := None;
    }

    method HandleEnd(m: Message, plain: Bytes, io: Io) returns (reply: Option<string>, ghost saved: Option<Saved>)
      requires Valid()
      modifies this`incoming, this`told, folder
      ensures Valid()
      ensures var (n, replies, s) := OnEnd(lib, old(State()), m, plain, io);
              State() == n && saved == s && replies == if reply.None? then [] else [Ack(old(State()), m, reply.value)]
    {
      hide F.Commit, F.Abort;
      saved := None;
      if m.id !in incoming {
        return None, None;
      }
      var t := incoming[m.id];
      if m.seqNo != t.next || t.got != t.meta.size || plain != lib.sum(t.fed) {
        Fail(m.id, t.writer);
        return Some(INCOMPLETE), None;
      }
      incoming := incoming - {m.id};
      ghost var content := F.Written(folder.State(), t.writer);
      CommitNeedsOpen(folder.State(), t.writer, io.closes, io.renames);
      var final := folder.CommitFile(t.writer, io.closes, io.renames);
      told := told + multiset{t.writer};
      if final.None? {
        return Some(CANNOT_SAVE + io.why), None;
      }
      saved := Some(Saved(m.id, final.value, content.value));
      reply := Some("");
    }

    /** handleFile: the reply, if any, to the sender of `m`. */
    method HandleFile(m: Message, now: int, io: Io) returns (reply: Option<string>, ghost saved: Option<Saved>)
      requires Valid()
      modifies this, folder
      ensures Valid()
      ensures var (n, replies, s) := Handle(lib, old(State()), m, now, io);
              State() == n && saved == s && replies == if reply.None? then [] else [Ack(old(State()), m, reply.value)]
    {
      hide OnStart, OnChunk, OnEnd;
      reply, saved := None, None;
      if m.to != me {
        return;
      }
      if m.mtype == TYPE_FILE_ACK {
        if m.id in acks && acks[m.id].None? {
          acks := acks[m.id := Some(m.error)];
        }
        return;
      }
      var plain := OpenFile(key, m);
      if plain.None? {
        return;
      }
      if m.mtype == TYPE_FILE_START {
        reply := HandleStart(m, plain.value, now, io);
      } else if m.mtype == TYPE_FILE_CHUNK {
        reply := HandleChunk(m, plain.value, now, io);
      } else if m.mtype == TYPE_FILE_END {
        reply, saved := HandleEnd(m, plain.value, io);
      }
    }

    /** The transfers that went quiet. */
    method Quiet(now: int) returns (gone: set<string>)
      ensures gone == Abandoned(State(), now)
    {
      gone := {};
      var left := incoming.Keys;
      while left != {}
        invariant left <= incoming.Keys
        invariant gone == set id | id in incoming.Keys - left && Expired(incoming[id], now)
        decreases left
      {
        var id :| id in left;
        left := left - {id};
        if Expired(incoming[id], now) { gone := gone + {id}; }
      }
    }

    /** Abort some writers, one after another. */
    method AbortThese(dead: set<F.Handle>)
      requires Valid()
      modifies folder
      ensures folder.State() == AbortAll(old(folder.State()), dead)
    {
      ghost var before := folder.State();
      ghost var aborted: set<F.Handle> := {};
      AbortNone(before);
      var todo := dead;
      while todo != {}
        invariant todo <= dead && aborted == dead - todo
        invariant folder.State() == AbortAll(before, aborted)
        decreases todo
      {
        var h :| h in todo;
        todo := todo - {h};
        AbortOneMore(before, aborted, h);
        folder.AbortFile(h);
        aborted := aborted + {h};
      }
      assert aborted == dead;
    }

    /** expireFiles: collect the transfers that went quiet, then abort each. */
    method ExpireFiles(now: int)
      requires Valid()
      modifies this`incoming, this`told, folder
      ensures Valid() && State() == Expire(old(State()), now)
    {
      var gone := Quiet(now);
      var dead := set id | id in gone :: incoming[id].writer;
      incoming := incoming - gone;
      AbortThese(dead);
      assert F.Sound(folder.State()) by { AbortedIsSound(old(folder.State()), dead); }
      if receives {
        told := told + multiset(dead);
      }
    }
  }

  lemma AbortedIsSound(d: F.Disk, hs: set<F.Handle>)
    requires F.Sound(d)
    ensures F.Sound(AbortAll(d, hs))
  {}

  lemma CommitNeedsOpen(d: F.Disk, h: F.Handle, closes: bool, renames: bool)
    ensures F.Commit(d, h, closes, renames).1.Some? ==> F.Written(d, h).Some?
  {}

  lemma AbortNone(d: F.Disk)
    ensures AbortAll(d, {}) == d
  {}

  lemma AbortOneMore(d: F.Disk, hs: set<F.Handle>, h: F.Handle)
    requires F.Sound(d)
    ensures F.Abort(AbortAll(d, hs), h) == AbortAll(d, hs + {h})
  {
    var l, r := F.Abort(AbortAll(d, hs), h), AbortAll(d, hs + {h});
    assert l.writers == r.writers;
    assert l.files == r.files;
  }

  // ---- Sending ----

  /** What a SendFile call meets: at each message, what is in its ack channel and whether
      the link takes the message; before each block, whether it was cancelled; at the
      end, the ack that came, if any, before the time ran out. */
  datatype Surroundings = Surroundings(mail: nat -> Option<string>, link: nat -> bool, cancelled: nat -> bool, reply: Option<string>)

  /** Message k goes out undisturbed. */
  predicate Clear(env: Surroundings, k: nat) {
    env.mail(k).None? && env.link(k)
  }

  /** Exactly what it takes for a transfer to be reported as done. */
  ghost predicate Smooth(lib: Library, job: Job, env: Surroundings, readFails: bool) {
    && !readFails && |job.data| == job.meta.size
    && (forall k | 0 <= k < |Script(lib, job)| :: Clear(env, k))
    && (forall k | 0 <= k <= |job.data| / CHUNK :: !env.cancelled(k))
    && env.reply == Some("")
  }

  /** The blocks read so far. */
  lemma BlocksSoFar(data: Bytes, k: nat)
    requires k * CHUNK <= |data|
    ensures k <= |Chunks(data)|
    ensures k * CHUNK < |data| ==>
              k < |Chunks(data)|
              && Chunks(data)[k] == data[k * CHUNK..if (k + 1) * CHUNK < |data| then (k + 1) * CHUNK else |data|]
    ensures k * CHUNK == |data| ==> k == |Chunks(data)|
  {
    ChunkAt(data, k);
  }

  lemma LastBlock(data: Bytes, k: nat)
    requires k * CHUNK <= |data| < (k + 1) * CHUNK
    ensures |data| / CHUNK == k
    ensures |Chunks(data)| == if k * CHUNK == |data| then k else k + 1
  {
    ChunkAt(data, k);
  }

  /** The message at each place of the script. */
  lemma ScriptParts(lib: Library, job: Job, k: nat)
    requires k <= |Chunks(job.data)|
    ensures Script(lib, job)[0] == StartOf(lib, job)
    ensures k < |Chunks(job.data)| ==> Script(lib, job)[k + 1] == Seal(job, TYPE_FILE_CHUNK, k, Chunks(job.data)[k])
    ensures k == |Chunks(job.data)| ==> Script(lib, job)[k + 1] == Seal(job, TYPE_FILE_END, k, lib.sum(job.data))
  {
    hide Seal;
  }

  lemma Spoiled(lib: Library, job: Job, env: Surroundings, readFails: bool, k: nat)
    requires k < |Script(lib, job)| && !Clear(env, k)
    ensures !Smooth(lib, job, env, readFails)
  {}

  lemma Cancelled(lib: Library, job: Job, env: Surroundings, readFails: bool, k: nat)
    requires k <= |job.data| / CHUNK && env.cancelled(k)
    ensures !Smooth(lib, job, env, readFails)
  {}

  /** `msg`: look into the ack channel, then hand message k to the link. */
  method Post(lib: Library, job: Job, k: nat, m: Message, sent: seq<Message>, env: Surroundings)
    returns (go: bool, sent': seq<Message>)
    requires k < |Script(lib, job)| && m == Script(lib, job)[k] && sent == Script(lib, job)[..k]
    ensures go <==> Clear(env, k)
    ensures sent' <= Script(lib, job) && (go ==> sent' == Script(lib, job)[..k + 1])
  {
    hide Script;
    if env.mail(k).Some? {
      return false, sent;
    }
    sent' := sent + [m];
    go := env.link(k);
  }

  /** SendFile in Go: io.ReadFull fills the buffer, and reading stops at the first block
      that is not full. `readFails` says whether the reader ends with an error instead. */
  method SendFile(lib: Library, job: Job, readFails: bool, env: Surroundings) returns (ok: bool, sent: seq<Message>)
    ensures sent <= Script(lib, job)
    ensures ok <==> Smooth(lib, job, env, readFails)
    ensures ok ==> sent == Script(lib, job)
  {
    hide Script, Seal, StartOf, Chunks, Smooth, Clear;
    ScriptParts(lib, job, 0);
    ok := false;
    var go;
    go, sent := Post(lib, job, 0, StartOf(lib, job), [], env);
    if !go {
      Spoiled(lib, job, env, readFails, 0);
      return;
    }
    var seqNo, pos, passes := 0, 0, 0;
    var more := true;
    while more
      invariant more ==> passes == seqNo && pos == seqNo * CHUNK <= |job.data|
      invariant !more ==> seqNo == |Chunks(job.data)| && pos == |job.data| && passes == |job.data| / CHUNK + 1
      invariant seqNo <= |Chunks(job.data)| && sent == Script(lib, job)[..seqNo + 1]
      invariant forall k | 0 <= k <= seqNo :: Clear(env, k)
      invariant forall k | 0 <= k < passes :: !env.cancelled(k)
      invariant !more ==> !readFails
      decreases more, |job.data| - pos
    {
      BlocksSoFar(job.data, seqNo);
      if env.cancelled(passes) {
        Cancelled(lib, job, env, readFails, passes);
        return;
      }
      var k := if |job.data| - pos < CHUNK then |job.data| - pos else CHUNK;
      passes := passes + 1;
      if k > 0 {
        ScriptParts(lib, job, seqNo);
        go, sent := Post(lib, job, seqNo + 1, Seal(job, TYPE_FILE_CHUNK, seqNo, job.data[pos..pos + k]), sent, env);
        if !go {
          Spoiled(lib, job, env, readFails, seqNo + 1);
          return;
        }
        seqNo := seqNo + 1;
        pos := pos + k;
      }
      if k < CHUNK {
        LastBlock(job.data, passes - 1);
        if readFails {
          ReadFailure(lib, job, env);
          return;
        }
        more := false;
      }
    }
    ok, sent := Finish(lib, job, seqNo, pos, sent, env, readFails);
  }

  lemma ReadFailure(lib: Library, job: Job, env: Surroundings)
    ensures !Smooth(lib, job, env, true)
  {}

  /** The size check, the closing message and the wait for the receiver. */
  method Finish(lib: Library, job: Job, seqNo: nat, pos: nat, sent: seq<Message>, env: Surroundings, ghost readFails: bool)
    returns (ok: bool, sent': seq<Message>)
    requires seqNo == |Chunks(job.data)| && pos == |job.data| && sent == Script(lib, job)[..seqNo + 1] && !readFails
    requires forall k | 0 <= k <= seqNo :: Clear(env, k)
    requires forall k | 0 <= k <= |job.data| / CHUNK :: !env.cancelled(k)
    ensures sent' <= Script(lib, job)
    ensures ok <==> Smooth(lib, job, env, readFails)
    ensures ok ==> sent' == Script(lib, job)
  {
    hide Script, Seal, Chunks, Clear;
    ok, sent' := false, sent;
    if pos != job.meta.size {
      return;
    }
    ScriptParts(lib, job, seqNo);
    var go;
    go, sent' := Post(lib, job, seqNo + 1, Seal(job, TYPE_FILE_END, seqNo, lib.sum(job.data)), sent, env);
    if !go {
      Spoiled(lib, job, env, readFails, seqNo + 1);
      return;
    }
    ok := env.reply == Some("");
  }

  /** One block by single reads that may each give less than asked, as Kotlin's inner
      loop does; `give` is how much the stream gives at each read. The read after the last
      byte says that there is no more, or throws. */
  method ReadBlock(data: Bytes, pos: nat, give: nat -> nat, readFails: bool) returns (k: nat, threw: bool)
    requires pos <= |data|
    ensures k == if |data| - pos < CHUNK then |data| - pos else CHUNK
    ensures threw <==> readFails && k < CHUNK
  {
    k, threw := 0, false;
    var turn := 0;
    while k < CHUNK
      invariant k <= CHUNK && pos + k <= |data|
      decreases CHUNK - k
    {
      if pos + k == |data| {
        return k, readFails;
      }
      var want := CHUNK - k;
      var left := |data| - pos - k;
      var most := if want < left then want else left;
      var got := if give(turn) < 1 then 1 else if give(turn) > most then most else give(turn);
      k := k + got;
      turn := turn + 1;
    }
  }

  /** sendFile in Kotlin: blocks gathered by single reads, a read that throws losing the
      block begun, a different loop exit, the same messages and the same outcome in every
      surroundings. `readFails` says whether the stream ends with an exception instead. */
  method SendFileKotlin(lib: Library, job: Job, give: nat -> nat, readFails: bool, env: Surroundings)
    returns (ok: bool, sent: seq<Message>)
    ensures sent <= Script(lib, job)
    ensures ok <==> Smooth(lib, job, env, readFails)
    ensures ok ==> sent == Script(lib, job)
  {
    hide Script, Seal, StartOf, Chunks, Smooth, Clear;
    ScriptParts(lib, job, 0);
    ok := false;
    var go;
    go, sent := Post(lib, job, 0, StartOf(lib, job), [], env);
    if !go {
      Spoiled(lib, job, env, readFails, 0);
      return;
    }
    var seqNo, pos, passes := 0, 0, 0;
    while true
      invariant passes == seqNo && pos == seqNo * CHUNK <= |job.data|
      invariant seqNo <= |Chunks(job.data)| && sent == Script(lib, job)[..seqNo + 1]
      invariant forall k | 0 <= k <= seqNo :: Clear(env, k)
      invariant forall k | 0 <= k < passes :: !env.cancelled(k)
      decreases |job.data| - pos
    {
      BlocksSoFar(job.data, seqNo);
      if env.cancelled(passes) {
        Cancelled(lib, job, env, readFails, passes);
        return;
      }
      var k, threw := ReadBlock(job.data, pos, give, readFails);
      if threw {
        ReadFailure(lib, job, env);
        return;
      }
      passes := passes + 1;
      if k > 0 {
        ScriptParts(lib, job, seqNo);
        go, sent := Post(lib, job, seqNo + 1, Seal(job, TYPE_FILE_CHUNK, seqNo, job.data[pos..pos + k]), sent, env);
        if !go {
          Spoiled(lib, job, env, readFails, seqNo + 1);
          return;
        }
        seqNo := seqNo + 1;
        pos := pos + k;
      }
      if k < CHUNK {
        LastBlock(job.data, passes - 1);
        break;
      }
    }
    ok, sent := Finish(lib, job, seqNo, pos, sent, env, readFails);
  }
}
