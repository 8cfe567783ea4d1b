/** What happens when nothing goes wrong: a sender's messages, received in order and without
    long silences by a device whose disk works, end in the file saved and a success ack. */
module Orderly {
  import opened Basics
  import opened Wire
  import opened Transfer
  import opened Delivery
  import F = Folder
  import L = TransferLife
  import Naming

  /** When each message is handled, and when the device looks for silent transfers in the
      time before it. */
  datatype Schedule = Schedule(at: nat -> int, looks: nat -> seq<int>)

  const MINUTE := 60_000_000_000

  predicate By(looks: seq<int>, last: int) {
    forall i | 0 <= i < |looks| :: looks[i] <= last
  }

  /** The device keeps looking, but never more than a minute after the last message. */
  ghost predicate Steady(when: Schedule) {
    forall k: nat | k > 0 :: By(when.looks(k), when.at(k - 1) + MINUTE)
  }

  function Pass(n: Inbox, looks: seq<int>): Inbox {
    if looks == [] then n else Expire(Pass(n, looks[..|looks| - 1]), looks[|looks| - 1])
  }

  /** Messages handled one after another: the device, all its replies, what it saved. */
  function ReceiveAll(lib: Library, n: Inbox, ms: seq<Message>, when: Schedule, io: Io): (Inbox, seq<Message>, Option<Saved>) {
    if ms == [] then (n, [], None)
    else
      var k := |ms| - 1;
      var (n1, replies, saved) := ReceiveAll(lib, n, ms[..k], when, io);
      var (n2, more, last) := Handle(lib, Pass(n1, when.looks(k)), ms[k], when.at(k), io);
      (n2, replies + more, if last.Some? then last else saved)
  }

  /** A disk on which everything works, giving `random` for the temporary name. */
  function Working(random: string): Io {
    Io(Some(random), None, true, true, "")
  }

  /** A device ready to receive the job, whatever else it is receiving. */
  ghost predicate Ready(n: Inbox, job: Job, random: string) {
    && n.me == job.to && n.key == job.key && n.receives && job.id !in n.incoming
    && F.TempName(random) !in n.disk.files && Complete(job) && Booked(n)
  }

  /** Only temporary files were added to the folder, and no other transfer has the writer. */
  ghost predicate Apart(base: map<string, Bytes>, n: Inbox, id: string, h: F.Handle) {
    && (forall f | f in n.disk.files && !F.Dotted(f) :: f in base)
    && forall x | x in n.incoming && x != id :: n.incoming[x].writer != h
  }

  /** After the start and k chunks, the last of them handled at time `active`. */
  ghost predicate Midway(base: map<string, Bytes>, n: Inbox, job: Job, k: nat, active: int) {
    && n.me == job.to && n.key == job.key && n.receives && F.Sound(n.disk) && job.id in n.incoming
    && var t := n.incoming[job.id];
       && t.meta == job.meta && t.from == job.me && t.next == k && k <= |Chunks(job.data)| && t.active == active
       && t.fed == Joined(Chunks(job.data)[..k]) && t.got == |t.fed| && F.Written(n.disk, t.writer) == Some(t.fed)
       && n.disk.writers[t.writer].name == Naming.SafeName(job.meta.name)
       && F.Dotted(n.disk.writers[t.writer].temp) && Apart(base, n, job.id, t.writer)
  }

  lemma StepHeader(lib: Library, job: Job, k: nat)
    requires k < |Script(lib, job)|
    ensures var s := Script(lib, job)[k]; s.id == job.id && s.to == job.to && s.origin == job.me && s.mtype != TYPE_FILE_ACK
    ensures |Script(lib, job)| == |Chunks(job.data)| + 2
    ensures Script(lib, job)[|Chunks(job.data)| + 1].seqNo == |Chunks(job.data)|
  {
    KindsDiffer();
  }

  lemma {:induction false} PrefixFits(cs: seq<Bytes>, k: nat)
    requires k <= |cs|
    ensures |Joined(cs[..k])| <= |Joined(cs)|
    decreases |cs| - k
  {
    if k == |cs| {
      assert cs[..k] == cs;
    } else {
      PrefixFits(cs, k + 1);
      JoinedNext(cs, k);
    }
  }

  lemma TempIsDotted(random: string)
    ensures F.Dotted(F.TempName(random))
  {}

  lemma BeginWorks(d: F.Disk, random: string, name: seq<Naming.Rune>)
    requires F.Sound(d) && F.TempName(random) !in d.files
    ensures var (d', h) := F.Begin(d, Some(random), name);
            && h == Some(d.begun) && d.begun !in d.writers && d.begun in d'.writers && F.Written(d', d.begun) == Some([]) && F.Sound(d')
            && d'.writers[d.begun] == F.Writer(F.TempName(random), Naming.SafeName(name), false)
            && d'.files.Keys == d.files.Keys + {F.TempName(random)}
  {
    F.BeginKeepsSound(d, Some(random), name);
    hide Naming.SafeName, F.TempName;
  }

  lemma BookedIsSound(n: Inbox)
    requires Booked(n)
    ensures F.Sound(n.disk) && forall x | x in n.incoming :: n.incoming[x].writer in n.disk.writers
  {}

  lemma StartTaken(lib: Library, n: Inbox, job: Job, m: Message, random: string, now: int)
    requires Ideal(lib) && Ready(n, job, random) && m.id == job.id && m.origin == job.me
    ensures var (n1, replies, saved) := OnStart(lib, n, m, lib.encode(job.meta), now, Working(random));
            Midway(n.disk.files, n1, job, 0, now) && replies == [] && saved == None
  {
    BookedIsSound(n);
    hide Booked;
    DecodeEncode(lib, job.meta);
    var disk := F.Begin(n.disk, Some(random), job.meta.name).0;
    BeginWorks(n.disk, random, job.meta.name);
    TempIsDotted(random);
    hide F.Begin, F.Written, F.Sound, F.TempName, F.Dotted, Naming.SafeName, Chunks, Joined;
    var t := Incoming(job.meta, job.me, n.disk.begun, 0, 0, [], now);
    assert OnStart(lib, n, m, lib.encode(job.meta), now, Working(random)) == (n.(disk := disk, incoming := n.incoming[job.id := t]), [], None);
    hide OnStart, Ideal;
    StartIsMidway(n, job, t, random, disk, now);
  }

  lemma StartIsMidway(n: Inbox, job: Job, t: Incoming, random: string, disk: F.Disk, now: int)
    requires n.me == job.to && n.key == job.key && n.receives && F.Sound(disk) && job.id !in n.incoming
    requires t == Incoming(job.meta, job.me, n.disk.begun, 0, 0, [], now) && n.disk.begun !in n.disk.writers
    requires F.Written(disk, t.writer) == Some([]) && t.writer in disk.writers
    requires disk.writers[t.writer] == F.Writer(F.TempName(random), Naming.SafeName(job.meta.name), false)
    requires disk.files.Keys == n.disk.files.Keys + {F.TempName(random)} && F.Dotted(F.TempName(random))
    requires forall x | x in n.incoming :: n.incoming[x].writer in n.disk.writers
    ensures Midway(n.disk.files, n.(disk := disk, incoming := n.incoming[job.id := t]), job, 0, now)
  {
    NothingYet(Chunks(job.data));
    StartApart(n, job.id, t, disk, F.TempName(random));
    hide Chunks, F.Written, F.Sound, F.TempName, F.Dotted, Naming.SafeName, Joined, Apart;
  }

  lemma NothingYet(cs: seq<Bytes>)
    ensures Joined(cs[..0]) == []
  {}

  lemma StartApart(n: Inbox, id: string, t: Incoming, disk: F.Disk, temp: string)
    requires disk.files.Keys == n.disk.files.Keys + {temp} && F.Dotted(temp)
    requires forall x | x in n.incoming :: n.incoming[x].writer != t.writer
    ensures Apart(n.disk.files, n.(disk := disk, incoming := n.incoming[id := t]), id, t.writer)
  {
    hide F.Dotted;
  }

  lemma PassBooked(n: Inbox, looks: seq<int>, job: Job, random: string)
    requires Ready(n, job, random)
    ensures Ready(Pass(n, looks), job, random)
    ensures Pass(n, looks).disk.files.Keys <= n.disk.files.Keys
  {
    if looks != [] {
      var n1 := Pass(n, looks[..|looks| - 1]);
      PassBooked(n, looks[..|looks| - 1], job, random);
      L.ExpireKeeps(n1, looks[|looks| - 1]);
      hide Booked;
    }
  }

  lemma Started(lib: Library, n: Inbox, job: Job, random: string, now: int)
    requires Ideal(lib) && Ready(n, job, random)
    ensures var (n1, replies, saved) := Handle(lib, n, Script(lib, job)[0], now, Working(random));
            Midway(n.disk.files, n1, job, 0, now) && replies == [] && saved == None
  {
    hide Script, Chunks, OpenFile, OnStart, Midway, Booked;
    ScriptStep(lib, job, 0);
    StepHeader(lib, job, 0);
    KindsDiffer();
    StartTaken(lib, n, job, Script(lib, job)[0], random, now);
  }

  /** Looking for silent transfers leaves one alone that was heard of within the minute. */
  lemma LookSpares(base: map<string, Bytes>, n: Inbox, job: Job, k: nat, active: int, now: int)
    requires Midway(base, n, job, k, active) && now <= active + MINUTE
    ensures Midway(base, Expire(n, now), job, k, active)
  {
    var hs := set id | id in Abandoned(n, now) :: n.incoming[id].writer;
    AbortAllKeepsOthers(n.disk, hs);
    assert AbortAll(n.disk, hs).files.Keys <= n.disk.files.Keys;
    assert forall h | h in n.disk.writers && h !in hs :: AbortAll(n.disk, hs).writers[h] == n.disk.writers[h];
    hide AbortAll, F.Sound, Joined, Chunks, F.Dotted, Naming.SafeName;
    var h := n.incoming[job.id].writer;
    assert job.id !in Abandoned(n, now);
    assert forall y | y in Abandoned(n, now) :: n.incoming[y].writer != h;
    assert h in n.disk.writers;
    hide F.Written;
  }

  lemma {:induction false} PassSpares(base: map<string, Bytes>, n: Inbox, job: Job, k: nat, active: int, looks: seq<int>)
    requires Midway(base, n, job, k, active) && By(looks, active + MINUTE)
    ensures Midway(base, Pass(n, looks), job, k, active)
    decreases |looks|
  {
    hide Midway, Expire;
    if looks != [] {
      PassSpares(base, n, job, k, active, looks[..|looks| - 1]);
      LookSpares(base, Pass(n, looks[..|looks| - 1]), job, k, active, looks[|looks| - 1]);
    }
  }

  lemma ChunkFits(job: Job, k: nat)
    requires Complete(job) && k < |Chunks(job.data)|
    ensures Joined(Chunks(job.data)[..k + 1]) == Joined(Chunks(job.data)[..k]) + Chunks(job.data)[k]
    ensures |Joined(Chunks(job.data)[..k])| + |Chunks(job.data)[k]| <= job.meta.size
  {
    hide Chunks, Joined;
    JoinedNext(Chunks(job.data), k);
    PrefixFits(Chunks(job.data), k + 1);
    ChunksJoin(job.data);
  }

  lemma WriteWorks(d: F.Disk, h: F.Handle, p: Bytes)
    requires F.Sound(d) && F.Written(d, h).Some?
    ensures var (d', ok) := F.Write(d, h, p, None);
            && ok && F.Sound(d') && F.Written(d', h) == Some(F.Written(d, h).value + p)
            && d'.writers == d.writers && d'.files.Keys == d.files.Keys
  {}

  lemma ChunkTaken(lib: Library, base: map<string, Bytes>, n: Inbox, job: Job, k: nat, active: int, random: string, now: int)
    requires Midway(base, n, job, k, active) && Complete(job) && k < |Chunks(job.data)|
    ensures var (n1, replies, saved) := Handle(lib, n, Script(lib, job)[k + 1], now, Working(random));
            Midway(base, n1, job, k + 1, now) && replies == [] && saved == None
  {
    hide Script, Chunks, Joined, OpenFile, F.Written, F.Write, F.Sound, F.Dotted, Naming.SafeName;
    StepHeader(lib, job, 0);
    ScriptStep(lib, job, k + 1);
    StepHeader(lib, job, k + 1);
    KindsDiffer();
    ChunkFits(job, k);
    WriteWorks(n.disk, n.incoming[job.id].writer, Chunks(job.data)[k]);
  }

  /** The file under its safe name, if no file had that; else under a numbered one. */
  ghost predicate Kept(base: map<string, Bytes>, n: Inbox, job: Job, saved: Option<Saved>) {
    && saved.Some? && saved.value.id == job.id && saved.value.content == job.data
    && saved.value.name in n.disk.files && n.disk.files[saved.value.name] == job.data
    && var safe := Naming.SafeName(job.meta.name);
       NumberedFrom(safe, saved.value.name) && (safe !in base ==> saved.value.name == safe)
  }

  lemma SafeIsUndotted(name: seq<Naming.Rune>)
    ensures !F.Dotted(Naming.SafeName(name))
  {
    Naming.SafeNameIsSafe(name);
    hide Naming.SafeName;
  }

  /** The name is kept if it is free; else it gets a number. */
  ghost predicate NumberedFrom(safe: string, name: string) {
    name == safe || exists i: nat :: i >= 2 && name == Naming.Candidate(safe, i)
  }

  lemma UniqueIsNumbered(taken: set<string>, safe: string)
    ensures NumberedFrom(safe, Naming.UniqueName(taken, safe))
    ensures safe !in taken ==> Naming.UniqueName(taken, safe) == safe
  {
    Naming.FirstFreeIsFree(taken, safe, 2);
    hide Naming.FirstFree, Naming.Candidate;
  }

  lemma CommitNames(d: F.Disk, h: F.Handle)
    requires F.Sound(d) && F.Written(d, h).Some?
    ensures var (d', final) := F.Commit(d, h, true, true);
            && final == Some(Naming.UniqueName(d.files.Keys, d.writers[h].name))
            && final.value in d'.files && d'.files[final.value] == F.Written(d, h).value
  {
    hide Naming.UniqueName, F.Sound;
  }

  lemma CommitWorks(d: F.Disk, h: F.Handle, base: map<string, Bytes>)
    requires F.Sound(d) && F.Written(d, h).Some? && !F.Dotted(d.writers[h].name)
    requires forall f | f in d.files && !F.Dotted(f) :: f in base
    ensures var (d', final) := F.Commit(d, h, true, true);
            && final.Some? && final.value in d'.files && d'.files[final.value] == F.Written(d, h).value
            && NumberedFrom(d.writers[h].name, final.value) && (d.writers[h].name !in base ==> final.value == d.writers[h].name)
  {
    assert h in d.writers;
    hide F.Sound, F.Written, F.Dotted, F.Commit, NumberedFrom, Naming.UniqueName;
    CommitNames(d, h);
    UniqueIsNumbered(d.files.Keys, d.writers[h].name);
  }

  lemma Whole(base: map<string, Bytes>, n: Inbox, job: Job, active: int)
    requires Midway(base, n, job, |Chunks(job.data)|, active) && Complete(job)
    ensures var t := n.incoming[job.id];
            && t.next == |Chunks(job.data)| && t.got == t.meta.size && t.fed == job.data && F.Written(n.disk, t.writer) == Some(job.data)
            && t.writer in n.disk.writers && n.disk.writers[t.writer].name == Naming.SafeName(job.meta.name)
  {
    ChunksJoin(job.data);
    assert Chunks(job.data)[..|Chunks(job.data)|] == Chunks(job.data);
    hide Chunks, Joined, F.Sound, Naming.SafeName;
  }

  lemma Committed(base: map<string, Bytes>, n: Inbox, job: Job, active: int)
    requires Midway(base, n, job, |Chunks(job.data)|, active) && Complete(job)
    ensures var (disk, final) := F.Commit(n.disk, n.incoming[job.id].writer, true, true);
            && final.Some? && Kept(base, n.(disk := disk, incoming := n.incoming - {job.id}), job, Some(Saved(job.id, final.value, job.data)))
  {
    Whole(base, n, job, active);
    SafeIsUndotted(job.meta.name);
    assert Apart(base, n, job.id, n.incoming[job.id].writer) && F.Sound(n.disk);
    CommitWorks(n.disk, n.incoming[job.id].writer, base);
    hide Midway, F.Sound, F.Commit, F.Written, F.Dotted, NumberedFrom, Naming.SafeName, Chunks;
  }

  lemma EndResult(lib: Library, n: Inbox, m: Message, plain: Bytes, io: Io)
    requires m.id in n.incoming && F.Written(n.disk, n.incoming[m.id].writer).Some?
    requires var t := n.incoming[m.id]; m.seqNo == t.next && t.got == t.meta.size && plain == lib.sum(t.fed)
    requires F.Commit(n.disk, n.incoming[m.id].writer, io.closes, io.renames).1.Some?
    ensures var h := n.incoming[m.id].writer;
            var (disk, final) := F.Commit(n.disk, h, io.closes, io.renames);
            OnEnd(lib, n, m, plain, io) ==
            (n.(disk := disk, incoming := n.incoming - {m.id}, told := n.told + multiset{h}), [Ack(n, m, "")],
             Some(Saved(m.id, final.value, F.Written(n.disk, h).value)))
  {
    hide F.Commit, F.Written;
  }

  /** Everything there, and a commit that works. */
  lemma EndCommits(lib: Library, base: map<string, Bytes>, n: Inbox, job: Job, active: int, m: Message, random: string)
    requires Midway(base, n, job, |Chunks(job.data)|, active) && Complete(job)
    requires m.id == job.id && m.seqNo == |Chunks(job.data)|
    ensures var (n1, replies, saved) := OnEnd(lib, n, m, lib.sum(job.data), Working(random));
            replies == [Ack(n, m, "")] && job.id !in n1.incoming && Kept(base, n1, job, saved)
  {
    assert Working(random).closes && Working(random).renames && job.id in n.incoming;
    hide *;
    Whole(base, n, job, active);
    Committed(base, n, job, active);
    EndResult(lib, n, m, lib.sum(job.data), Working(random));
    KeptAnyway(base, n, n.incoming[job.id].writer, job);
  }

  /** What the user has been told is not part of what is kept. */
  lemma KeptAnyway(base: map<string, Bytes>, n: Inbox, h: F.Handle, job: Job)
    ensures var (disk, final) := F.Commit(n.disk, h, true, true);
            forall saved | Kept(base, n.(disk := disk, incoming := n.incoming - {job.id}), job, saved) ::
              Kept(base, n.(disk := disk, incoming := n.incoming - {job.id}, told := n.told + multiset{h}), job, saved)
  {
    hide F.Commit, NumberedFrom, Naming.SafeName;
  }

  lemma EndTaken(lib: Library, base: map<string, Bytes>, n: Inbox, job: Job, active: int, random: string, now: int)
    requires Midway(base, n, job, |Chunks(job.data)|, active) && Complete(job)
    ensures |Script(lib, job)| == |Chunks(job.data)| + 2
    ensures var m := Script(lib, job)[|Chunks(job.data)| + 1];
            var (n1, replies, saved) := Handle(lib, n, m, now, Working(random));
            replies == [Ack(n, m, "")] && job.id !in n1.incoming && Kept(base, n1, job, saved)
  {
    assert n.me == job.to && n.key == job.key;
    hide Script, Chunks, OpenFile, OnEnd, Midway, Kept;
    var c := |Chunks(job.data)|;
    StepHeader(lib, job, 0);
    ScriptStep(lib, job, c + 1);
    StepHeader(lib, job, c + 1);
    KindsDiffer();
    EndCommits(lib, base, n, job, active, Script(lib, job)[c + 1], random);
  }

  lemma FewerFiles(base: map<string, Bytes>, more: map<string, Bytes>, n: Inbox, job: Job, k: nat, active: int)
    requires Midway(base, n, job, k, active) && base.Keys <= more.Keys
    ensures Midway(more, n, job, k, active)
  {
    hide F.Sound, F.Written, F.Dotted, Joined, Chunks, Naming.SafeName;
  }

  /** The first k + 1 messages have led to the start and k chunks being taken. */
  ghost predicate Received(lib: Library, n: Inbox, job: Job, random: string, when: Schedule, k: nat)
    requires k <= |Chunks(job.data)|
  {
    var (n1, replies, saved) := ReceiveAll(lib, n, Script(lib, job)[..k + 1], when, Working(random));
    Midway(n.disk.files, n1, job, k, when.at(k)) && replies == [] && saved == None
  }

  lemma StartReceived(lib: Library, n: Inbox, job: Job, random: string, when: Schedule)
    requires Ideal(lib) && Ready(n, job, random)
    ensures Received(lib, n, job, random, when, 0)
  {
    hide Script, Midway, Handle, Chunks, Pass, Ready;
    var ms, n0 := Script(lib, job), Pass(n, when.looks(0));
    assert ms[..1][..0] == [] && ms[..1][0] == ms[0];
    PassBooked(n, when.looks(0), job, random);
    Started(lib, n0, job, random, when.at(0));
    assert ReceiveAll(lib, n, [], when, Working(random)) == (n, [], None);
    assert ReceiveAll(lib, n, ms[..1], when, Working(random)).0 == Handle(lib, n0, ms[0], when.at(0), Working(random)).0;
    FewerFiles(n0.disk.files, n.disk.files, Handle(lib, n0, ms[0], when.at(0), Working(random)).0, job, 0, when.at(0));
  }

  lemma ChunkReceived(lib: Library, n: Inbox, job: Job, random: string, when: Schedule, k: nat)
    requires Complete(job) && Steady(when) && 0 < k <= |Chunks(job.data)| && Received(lib, n, job, random, when, k - 1)
    ensures Received(lib, n, job, random, when, k)
  {
    hide Script, Midway, Handle, Chunks, Pass;
    var ms := Script(lib, job);
    assert ms[..k + 1][..k] == ms[..k] && ms[..k + 1][k] == ms[k];
    var n1 := ReceiveAll(lib, n, ms[..k], when, Working(random)).0;
    PassSpares(n.disk.files, n1, job, k - 1, when.at(k - 1), when.looks(k));
    ChunkTaken(lib, n.disk.files, Pass(n1, when.looks(k)), job, k - 1, when.at(k - 1), random, when.at(k));
  }

  lemma {:induction false} AllReceived(lib: Library, n: Inbox, job: Job, random: string, when: Schedule, k: nat)
    requires Ideal(lib) && Ready(n, job, random) && Steady(when) && k <= |Chunks(job.data)|
    ensures Received(lib, n, job, random, when, k)
    decreases k
  {
    assert Complete(job);
    hide Received, Ready, Ideal, Steady, Chunks;
    if k == 0 {
      StartReceived(lib, n, job, random, when);
    } else {
      AllReceived(lib, n, job, random, when, k - 1);
      ChunkReceived(lib, n, job, random, when, k);
    }
  }

  lemma LastReceived(lib: Library, n: Inbox, ms: seq<Message>, when: Schedule, io: Io)
    requires ms != []
    ensures var k := |ms| - 1;
            var (n1, replies, saved) := ReceiveAll(lib, n, ms[..k], when, io);
            var (n2, more, last) := Handle(lib, Pass(n1, when.looks(k)), ms[k], when.at(k), io);
            ReceiveAll(lib, n, ms, when, io) == (n2, replies + more, if last.Some? then last else saved)
  {
    hide Handle, Pass;
  }

  lemma AckSays(n: Inbox, m: Message, job: Job)
    requires m.id == job.id && m.origin == job.me
    ensures var r := Ack(n, m, ""); r.mtype == TYPE_FILE_ACK && r.id == job.id && r.to == job.me && r.error == ""
  {}

  lemma EndReceived(lib: Library, n: Inbox, job: Job, random: string, when: Schedule)
    requires Complete(job) && Steady(when) && Received(lib, n, job, random, when, |Chunks(job.data)|)
    ensures var (n1, replies, saved) := ReceiveAll(lib, n, Script(lib, job), when, Working(random));
            && |replies| == 1 && replies[0].mtype == TYPE_FILE_ACK && replies[0].id == job.id && replies[0].to == job.me && replies[0].error == ""
            && job.id !in n1.incoming && Kept(n.disk.files, n1, job, saved)
  {
    hide *;
    var c, ms := |Chunks(job.data)|, Script(lib, job);
    StepHeader(lib, job, c + 1);
    AllButLast(ms, c + 1);
    SteadyBy(when, c + 1);
    ReceivedMeans(lib, n, job, random, when, c);
    var (n1, replies, saved) := ReceiveAll(lib, n, ms[..c + 1], when, Working(random));
    LastReceived(lib, n, ms, when, Working(random));
    var n2 := Pass(n1, when.looks(c + 1));
    PassSpares(n.disk.files, n1, job, c, when.at(c), when.looks(c + 1));
    EndTaken(lib, n.disk.files, n2, job, when.at(c), random, when.at(c + 1));
    AckSays(n2, ms[c + 1], job);
    var (n3, more, last) := Handle(lib, n2, ms[c + 1], when.at(c + 1), Working(random));
    assert replies + more == [Ack(n2, ms[c + 1], "")];
    KeptSome(n.disk.files, n3, job, last);
  }

  lemma AllButLast(ms: seq<Message>, k: nat)
    requires |ms| == k + 1
    ensures ms[..|ms| - 1] == ms[..k]
  {}

  lemma SteadyBy(when: Schedule, k: nat)
    requires Steady(when) && k > 0
    ensures By(when.looks(k), when.at(k - 1) + MINUTE)
  {}

  lemma ReceivedMeans(lib: Library, n: Inbox, job: Job, random: string, when: Schedule, k: nat)
    requires k <= |Chunks(job.data)| && Received(lib, n, job, random, when, k)
    ensures |Script(lib, job)| == |Chunks(job.data)| + 2
    ensures var (n1, replies, saved) := ReceiveAll(lib, n, Script(lib, job)[..k + 1], when, Working(random));
            Midway(n.disk.files, n1, job, k, when.at(k)) && replies == [] && saved == None
  {
    hide Script, Chunks, ReceiveAll, Midway;
  }

  lemma KeptSome(base: map<string, Bytes>, n: Inbox, job: Job, saved: Option<Saved>)
    requires Kept(base, n, job, saved)
    ensures saved.Some?
  {}

  /** For every file, of every length from 0 up: if all the sender's messages arrive in
      order, never more than a minute before the device next looks for silent transfers,
      and the disk works, the device answers once, with success, and has the file. */
  lemma OrderlyTransferSucceeds(lib: Library, n: Inbox, job: Job, random: string, when: Schedule)
    requires Ideal(lib) && Ready(n, job, random) && Steady(when)
    ensures var (n1, replies, saved) := ReceiveAll(lib, n, Script(lib, job), when, Working(random));
            && |replies| == 1 && replies[0].mtype == TYPE_FILE_ACK && replies[0].id == job.id && replies[0].to == job.me && replies[0].error == ""
            && job.id !in n1.incoming && Kept(n.disk.files, n1, job, saved)
  {
    assert Complete(job);
    AllReceived(lib, n, job, random, when, |Chunks(job.data)|);
    hide Ready, Received, Ideal, Steady, Script, Kept, ReceiveAll, Chunks;
    EndReceived(lib, n, job, random, when);
  }

  /** A look ends a transfer if and only if nothing has been heard of it for more than a
      minute; its writer is then closed, its temporary file gone and the user told. */
  lemma SilenceEndsIt(n: Inbox, id: string, now: int)
    requires Booked(n) && id in n.incoming
    ensures var n', h := Expire(n, now), n.incoming[id].writer;
            && (id !in n'.incoming <==> now - n.incoming[id].active > MINUTE)
            && (id !in n'.incoming ==> n'.disk.writers[h].done && n'.disk.writers[h].temp !in n'.disk.files && n'.told[h] == n.told[h] + 1)
            && (id in n'.incoming ==> n'.incoming[id] == n.incoming[id] && F.Written(n'.disk, h) == F.Written(n.disk, h))
  {
    var dead := Abandoned(n, now);
    var hs := set x | x in dead :: n.incoming[x].writer;
    assert id in dead ==> n.incoming[id].writer in hs;
    assert id !in dead ==> n.incoming[id].writer !in hs;
    AbortAllKeepsOthers(n.disk, hs);
    OpenIsWritten(n.disk, n.incoming[id].writer);
  }

  lemma OpenIsWritten(d: F.Disk, h: F.Handle)
    requires F.Sound(d) && F.Open(d, h)
    ensures F.Written(d, h).Some?
  {}
}
