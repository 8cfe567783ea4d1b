/** Every incoming file ends once: its temporary file is renamed or removed, its writer
    leaves the table and the user hears about it exactly once. The one thing that breaks
    this is a start that takes the id of a transfer still under way. */
module TransferLife {
  import opened Basics
  import opened Wire
  import opened Transfer
  import Naming
  import F = Folder

  ghost predicate SameStrays(n: Inbox, n': Inbox) {
    forall h :: Stray(n', h) <==> Stray(n, h)
  }

  /** A transfer leaves the table as its writer closes and the user is told. */
  lemma SettlingKeeps(n: Inbox, id: string, disk: F.Disk)
    requires Booked(n) && id in n.incoming
    requires F.Sound(disk) && disk.writers.Keys == n.disk.writers.Keys
    requires forall k :: F.Open(disk, k) <==> F.Open(n.disk, k) && k != n.incoming[id].writer
    ensures var n' := n.(disk := disk, incoming := n.incoming - {id}, told := n.told + multiset{n.incoming[id].writer});
            Booked(n') && SameStrays(n, n')
  {
    hide F.Sound, F.Open;
    var h := n.incoming[id].writer;
    var n' := n.(disk := disk, incoming := n.incoming - {id}, told := n.told + multiset{h});
    forall k ensures Stray(n', k) <==> Stray(n, k) {
      if Stray(n', k) {
        forall x | x in n.incoming ensures n.incoming[x].writer != k { if x != id { assert x in n'.incoming; } }
      }
    }
    assert h in n.disk.writers by { OpenIsWriter(n.disk, h); }
  }

  lemma OpenIsWriter(d: F.Disk, h: F.Handle)
    requires F.Open(d, h)
    ensures h in d.writers
  {}

  lemma AbortCloses(d: F.Disk, h: F.Handle)
    requires F.Sound(d) && F.Open(d, h)
    ensures var d' := F.Abort(d, h);
            F.Sound(d') && d'.writers.Keys == d.writers.Keys && forall k :: F.Open(d', k) <==> F.Open(d, k) && k != h
  {
    F.AbortKeepsSound(d, h);
  }

  lemma GiveUpKeeps(n: Inbox, id: string)
    requires Booked(n) && id in n.incoming
    ensures var n' := GiveUp(n, id, n.incoming[id].writer); Booked(n') && SameStrays(n, n')
  {
    AbortCloses(n.disk, n.incoming[id].writer);
    SettlingKeeps(n, id, F.Abort(n.disk, n.incoming[id].writer));
  }

  lemma WriteOpens(d: F.Disk, h: F.Handle, p: Bytes, short: Option<nat>)
    ensures var (d', ok) := F.Write(d, h, p, short); d'.writers == d.writers && d'.begun == d.begun
  {}

  /** A change of file contents only. */
  lemma WritingKeeps(n: Inbox, h: F.Handle, p: Bytes, short: Option<nat>)
    requires Booked(n)
    ensures var n' := n.(disk := F.Write(n.disk, h, p, short).0); Booked(n') && SameStrays(n, n')
  {
    F.WriteKeepsSound(n.disk, h, p, short);
    WriteOpens(n.disk, h, p, short);
    hide F.Write;
    var n' := n.(disk := F.Write(n.disk, h, p, short).0);
    assert forall k :: F.Open(n'.disk, k) == F.Open(n.disk, k);
  }

  lemma ProgressKeeps(n: Inbox, id: string, t: Incoming)
    requires Booked(n) && id in n.incoming && t.writer == n.incoming[id].writer
    ensures var n' := n.(incoming := n.incoming[id := t]); Booked(n') && SameStrays(n, n')
  {
    hide F.Sound, F.Open;
    var n' := n.(incoming := n.incoming[id := t]);
    assert forall x | x in n.incoming :: x in n'.incoming && n'.incoming[x].writer == n.incoming[x].writer;
  }

  lemma ChunkKeeps(n: Inbox, m: Message, plain: Bytes, now: int, io: Io)
    requires Booked(n)
    ensures var n' := OnChunk(n, m, plain, now, io).0; Booked(n') && SameStrays(n, n')
  {
    hide Booked, Stray, F.Write, GiveUp;
    if m.id in n.incoming {
      var t := n.incoming[m.id];
      GiveUpKeeps(n, m.id);
      var (disk, ok) := F.Write(n.disk, t.writer, plain, io.short);
      WritingKeeps(n, t.writer, plain, io.short);
      GiveUpKeeps(n.(disk := disk), m.id);
      var t' := t.(next := t.next + 1, got := t.got + |plain|, fed := t.fed + plain, active := now);
      ProgressKeeps(n.(disk := disk), m.id, t');
    }
  }

  lemma CommitCloses(d: F.Disk, h: F.Handle, closes: bool, renames: bool)
    requires F.Sound(d) && F.Open(d, h)
    ensures var d' := F.Commit(d, h, closes, renames).0;
            F.Sound(d') && d'.writers.Keys == d.writers.Keys && forall k :: F.Open(d', k) <==> F.Open(d, k) && k != h
  {
    F.CommitKeepsSound(d, h, closes, renames);
  }

  /** An end gives the transfer up or commits it. */
  lemma EndShape(lib: Library, n: Inbox, m: Message, plain: Bytes, io: Io)
    requires m.id in n.incoming
    ensures var n', h := OnEnd(lib, n, m, plain, io).0, n.incoming[m.id].writer;
            || n' == GiveUp(n, m.id, h)
            || n' == n.(disk := F.Commit(n.disk, h, io.closes, io.renames).0, incoming := n.incoming - {m.id}, told := n.told + multiset{h})
  {
    hide F.Commit, F.Written, GiveUp;
  }

  lemma EndKeeps(lib: Library, n: Inbox, m: Message, plain: Bytes, io: Io)
    requires Booked(n)
    ensures var n' := OnEnd(lib, n, m, plain, io).0; Booked(n') && SameStrays(n, n')
  {
    if m.id in n.incoming {
      var h := n.incoming[m.id].writer;
      assert F.Sound(n.disk) && F.Open(n.disk, h);
      EndShape(lib, n, m, plain, io);
      hide *;
      GiveUpKeeps(n, m.id);
      CommitCloses(n.disk, h, io.closes, io.renames);
      SettlingKeeps(n, m.id, F.Commit(n.disk, h, io.closes, io.renames).0);
    }
  }

  /** What it takes for a start to open a writer: the device receives files, the header
      is a proper one, and a temporary file can be created. */
  predicate OpensWriter(lib: Library, n: Inbox, plain: Bytes, io: Io) {
    && n.receives && lib.decode(plain).Some? && lib.decode(plain).value.size >= 0
    && io.temp.Some? && F.TempName(io.temp.value) !in n.disk.files
  }

  lemma BeginOpens(d: F.Disk, io: Io, meta: Meta)
    requires F.Sound(d)
    ensures var (d', h) := F.Begin(d, io.temp, meta.name);
            && F.Sound(d') && (h.Some? <==> io.temp.Some? && F.TempName(io.temp.value) !in d.files)
            && if h.None? then d' == d
               else h.value !in d.writers && F.Open(d', h.value) && d'.writers.Keys == d.writers.Keys + {h.value}
                    && forall k | k != h.value :: F.Open(d', k) == F.Open(d, k)
  {
    hide Naming.SafeName, F.TempName;
    F.BeginKeepsSound(d, io.temp, meta.name);
  }

  /** A transfer enters the table with a writer of its own. The writer of a transfer that
      had the id before is left with no transfer. */
  lemma OpeningKeeps(n: Inbox, id: string, t: Incoming, disk: F.Disk)
    requires Booked(n) && n.receives
    requires F.Sound(disk) && t.writer !in n.disk.writers && F.Open(disk, t.writer)
    requires disk.writers.Keys == n.disk.writers.Keys + {t.writer}
    requires forall k | k != t.writer :: F.Open(disk, k) == F.Open(n.disk, k)
    ensures var n' := n.(disk := disk, incoming := n.incoming[id := t]);
            && Booked(n')
            && forall k :: Stray(n', k) <==> Stray(n, k) || (id in n.incoming && k == n.incoming[id].writer)
  {
    assert forall k | F.Open(n.disk, k) :: k in n.disk.writers;
    hide F.Sound, F.Open;
    var n' := n.(disk := disk, incoming := n.incoming[id := t]);
    forall k ensures Stray(n', k) <==> Stray(n, k) || (id in n.incoming && k == n.incoming[id].writer) {
      if Stray(n', k) && !Stray(n, k) {
        assert n'.incoming[id].writer == t.writer != k;
        var x :| x in n.incoming && n.incoming[x].writer == k;
        assert x in n'.incoming;
      }
    }
  }

  /** A start leaves exactly the writer stray whose transfer it takes the id of. */
  lemma StartKeeps(lib: Library, n: Inbox, m: Message, plain: Bytes, now: int, io: Io)
    requires Booked(n)
    ensures var n' := OnStart(lib, n, m, plain, now, io).0;
            && Booked(n')
            && forall h :: Stray(n', h) <==>
                 Stray(n, h) || (OpensWriter(lib, n, plain, io) && m.id in n.incoming && h == n.incoming[m.id].writer)
  {
    if n.receives && lib.decode(plain).Some? && lib.decode(plain).value.size >= 0 {
      var meta := lib.decode(plain).value;
      BeginOpens(n.disk, io, meta);
      var (disk, h) := F.Begin(n.disk, io.temp, meta.name);
      if h.Some? { OpeningKeeps(n, m.id, Incoming(meta, m.origin, h.value, 0, 0, [], now), disk); }
      hide Booked, Stray, F.Begin;
    }
  }

  lemma AbortAllEffect(d: F.Disk, hs: set<F.Handle>)
    requires F.Sound(d)
    ensures F.Sound(AbortAll(d, hs))
    ensures AbortAll(d, hs).writers.Keys == d.writers.Keys
    ensures forall h :: F.Open(AbortAll(d, hs), h) <==> F.Open(d, h) && h !in hs
  {}

  /** Several transfers leave the table at once. */
  lemma DroppingKeeps(n: Inbox, dead: set<string>, hs: set<F.Handle>, disk: F.Disk)
    requires Booked(n) && dead <= n.incoming.Keys && hs == set id | id in dead :: n.incoming[id].writer
    requires F.Sound(disk) && disk.writers.Keys == n.disk.writers.Keys
    requires forall h :: F.Open(disk, h) <==> F.Open(n.disk, h) && h !in hs
    ensures var n' := n.(disk := disk, incoming := n.incoming - dead, told := n.told + multiset(hs));
            Booked(n') && SameStrays(n, n')
  {
    assert forall h | F.Open(n.disk, h) :: h in n.disk.writers;
    hide F.Sound, F.Open;
    var n' := n.(disk := disk, incoming := n.incoming - dead, told := n.told + multiset(hs));
    assert forall y | y in dead :: n.incoming[y].writer in hs;
    forall k ensures Stray(n', k) <==> Stray(n, k) { DroppingStrays(n, dead, hs, disk, k); }
    hide Stray;
    forall x | x in n'.incoming ensures n'.incoming[x].writer !in hs {
      assert forall y | y in dead :: n.incoming[y].writer != n.incoming[x].writer;
    }
  }

  lemma DroppingStrays(n: Inbox, dead: set<string>, hs: set<F.Handle>, disk: F.Disk, h: F.Handle)
    requires dead <= n.incoming.Keys && hs == set id | id in dead :: n.incoming[id].writer
    requires F.Open(disk, h) <==> F.Open(n.disk, h) && h !in hs
    ensures Stray(n.(disk := disk, incoming := n.incoming - dead, told := n.told + multiset(hs)), h) <==> Stray(n, h)
  {
    hide F.Open;
    var n' := n.(disk := disk, incoming := n.incoming - dead, told := n.told + multiset(hs));
    assert forall y | y in dead :: n.incoming[y].writer in hs;
    if Stray(n', h) {
      forall x | x in n.incoming ensures n.incoming[x].writer != h { if x !in dead { assert x in n'.incoming; } }
    }
  }

  lemma ExpireKeeps(n: Inbox, now: int)
    requires Booked(n)
    ensures Booked(Expire(n, now)) && SameStrays(n, Expire(n, now))
  {
    var dead := Abandoned(n, now);
    var hs := set id | id in dead :: n.incoming[id].writer;
    assert F.Sound(n.disk) && (!n.receives ==> hs == {});
    AbortAllEffect(n.disk, hs);
    DroppingKeeps(n, dead, hs, AbortAll(n.disk, hs));
    hide Booked, Stray, AbortAll;
    assert n.told + multiset(hs) == if n.receives then n.told + multiset(hs) else n.told;
  }

  // ---- Whole runs of one device ----

  datatype Event = Arrives(m: Message, now: int, io: Io) | Expires(now: int)

  function Next(lib: Library, n: Inbox, e: Event): Inbox {
    match e
    case Arrives(m, now, io) => Handle(lib, n, m, now, io).0
    case Expires(now) => Expire(n, now)
  }

  function After(lib: Library, n: Inbox, es: seq<Event>): Inbox
    decreases |es|
  {
    if es == [] then n else After(lib, Next(lib, n, es[0]), es[1..])
  }

  predicate Idle(n: Inbox) {
    n.incoming == map[] && n.disk.writers == map[] && n.told == multiset{}
  }

  /** A start for this device that opens under the key, with the id of a transfer still
      under way, and that gets a writer. */
  predicate Leaks(lib: Library, n: Inbox, e: Event) {
    && e.Arrives? && e.m.to == n.me && e.m.mtype == TYPE_FILE_START && e.m.id in n.incoming
    && OpenFile(n.key, e.m).Some? && OpensWriter(lib, n, OpenFile(n.key, e.m).value, e.io)
  }

  predicate Displaces(lib: Library, n: Inbox, e: Event, h: F.Handle) {
    Leaks(lib, n, e) && h == n.incoming[e.m.id].writer
  }

  lemma StartIsNoAck()
    ensures TYPE_FILE_START != TYPE_FILE_ACK
  {
    assert |TYPE_FILE_START| != |TYPE_FILE_ACK|;
  }

  /** Every message and every expiry keeps the books, and leaves exactly the writer stray
      that it displaces. */
  lemma StepKeeps(lib: Library, n: Inbox, e: Event)
    requires Booked(n)
    ensures Booked(Next(lib, n, e))
    ensures forall h :: Stray(Next(lib, n, e), h) <==> Stray(n, h) || Displaces(lib, n, e, h)
  {
    hide OnStart, OnChunk, OnEnd, Expire, OpensWriter, TakeAck, OpenFile, Booked, Stray;
    match e
    case Expires(now) =>
      ExpireKeeps(n, now);
    case Arrives(m, now, io) =>
      StartIsNoAck();
      if m.to == n.me && OpenFile(n.key, m).Some? {
        var plain := OpenFile(n.key, m).value;
        StartKeeps(lib, n, m, plain, now, io);
        ChunkKeeps(n, m, plain, now, io);
        EndKeeps(lib, n, m, plain, io);
      }
      TakeAckSame(n, m);
  }

  lemma TakeAckSame(n: Inbox, m: Message)
    requires Booked(n)
    ensures Booked(TakeAck(n, m)) && SameStrays(n, TakeAck(n, m))
  {}

  /** A step breaks the agreement of table and open writers if and only if it is a start
      of that kind. */
  lemma RepeatedStartLeaks(lib: Library, n: Inbox, e: Event)
    requires Lifecycle(n)
    ensures Lifecycle(Next(lib, n, e)) <==> !Leaks(lib, n, e)
  {
    StepKeeps(lib, n, e);
    hide Booked, Stray, Next, OpensWriter;
    if Leaks(lib, n, e) { assert Displaces(lib, n, e, n.incoming[e.m.id].writer); }
  }

  /** Some step of the run displaces the writer. */
  predicate DisplacedIn(lib: Library, n: Inbox, es: seq<Event>, h: F.Handle)
    decreases |es|
  {
    es != [] && (Displaces(lib, n, es[0], h) || DisplacedIn(lib, Next(lib, n, es[0]), es[1..], h))
  }

  predicate LeakFree(lib: Library, n: Inbox, es: seq<Event>)
    decreases |es|
  {
    es == [] || (!Leaks(lib, n, es[0]) && LeakFree(lib, Next(lib, n, es[0]), es[1..]))
  }

  /** After any run the stray writers are those there were and those it displaced: no
      message and no expiry ever gets rid of one. */
  lemma {:induction false} StraysStay(lib: Library, n: Inbox, es: seq<Event>, h: F.Handle)
    requires Booked(n)
    ensures Booked(After(lib, n, es))
    ensures Stray(After(lib, n, es), h) <==> Stray(n, h) || DisplacedIn(lib, n, es, h)
    decreases |es|
  {
    hide Booked, Stray, Next, Displaces;
    if es != [] {
      StepKeeps(lib, n, es[0]);
      StraysStay(lib, Next(lib, n, es[0]), es[1..], h);
    }
  }

  lemma {:induction false} NoneDisplaced(lib: Library, n: Inbox, es: seq<Event>, h: F.Handle)
    requires LeakFree(lib, n, es)
    ensures !DisplacedIn(lib, n, es, h)
    decreases |es|
  {
    if es != [] { NoneDisplaced(lib, Next(lib, n, es[0]), es[1..], h); }
  }

  lemma {:induction false} SomeDisplaced(lib: Library, n: Inbox, es: seq<Event>) returns (h: F.Handle)
    requires !LeakFree(lib, n, es)
    ensures DisplacedIn(lib, n, es, h)
    decreases |es|
  {
    if Leaks(lib, n, es[0]) {
      h := n.incoming[es[0].m.id].writer;
    } else {
      h := SomeDisplaced(lib, Next(lib, n, es[0]), es[1..]);
    }
  }

  /** After a run the incoming transfers are exactly the open writers if and only if no
      start in it took the id of a transfer under way and got a writer. */
  lemma LifecycleHoldsExactly(lib: Library, n: Inbox, es: seq<Event>)
    requires Lifecycle(n)
    ensures Lifecycle(After(lib, n, es)) <==> LeakFree(lib, n, es)
  {
    hide Booked, Stray, Next, Displaces, Leaks;
    StraysStay(lib, n, es, 0);
    if LeakFree(lib, n, es) {
      forall h ensures !Stray(After(lib, n, es), h) {
        NoneDisplaced(lib, n, es, h);
        StraysStay(lib, n, es, h);
      }
    } else {
      var h := SomeDisplaced(lib, n, es);
      StraysStay(lib, n, es, h);
    }
  }

  // ---- The folder over whole runs ----

  ghost predicate Kept(n: Inbox, base: map<string, Bytes>) {
    F.Sound(n.disk) && F.Tidy(n.disk, base)
  }

  lemma AbortAllTidy(d: F.Disk, base: map<string, Bytes>, hs: set<F.Handle>)
    requires F.Sound(d) && F.Tidy(d, base)
    ensures F.Sound(AbortAll(d, hs)) && F.Tidy(AbortAll(d, hs), base)
  {
    var d' := AbortAll(d, hs);
    assert forall k :: F.Open(d', k) == (F.Open(d, k) && k !in hs);
    forall f | f in d'.files && F.Dotted(f) ensures f in base || F.Owned(d', f) {
      if f !in base {
        var k :| F.Open(d, k) && d.writers[k].temp == f;
        assert F.Open(d', k);
      }
    }
  }

  lemma StartTidy(lib: Library, n: Inbox, m: Message, plain: Bytes, now: int, io: Io, base: map<string, Bytes>)
    requires Kept(n, base)
    ensures Kept(OnStart(lib, n, m, plain, now, io).0, base)
  {
    var meta := lib.decode(plain);
    hide F.Begin, F.Sound, F.Tidy;
    if meta.Some? {
      F.BeginKeepsSound(n.disk, io.temp, meta.value.name);
      F.BeginTidy(n.disk, base, io.temp, meta.value.name);
    }
  }

  lemma ChunkTidy(n: Inbox, m: Message, plain: Bytes, now: int, io: Io, base: map<string, Bytes>)
    requires Kept(n, base)
    ensures Kept(OnChunk(n, m, plain, now, io).0, base)
  {
    hide F.Write, F.Abort, F.Sound, F.Tidy;
    if m.id in n.incoming {
      var h := n.incoming[m.id].writer;
      var d := F.Write(n.disk, h, plain, io.short).0;
      F.WriteKeepsSound(n.disk, h, plain, io.short);
      F.WriteTidy(n.disk, base, h, plain, io.short);
      F.AbortKeepsSound(n.disk, h);
      F.AbortTidy(n.disk, base, h);
      F.AbortKeepsSound(d, h);
      F.AbortTidy(d, base, h);
    }
  }

  lemma EndTidy(lib: Library, n: Inbox, m: Message, plain: Bytes, io: Io, base: map<string, Bytes>)
    requires Kept(n, base)
    ensures Kept(OnEnd(lib, n, m, plain, io).0, base)
  {
    hide F.Commit, F.Abort, F.Sound, F.Tidy, F.Written;
    if m.id in n.incoming {
      var h := n.incoming[m.id].writer;
      F.CommitKeepsSound(n.disk, h, io.closes, io.renames);
      F.CommitTidy(n.disk, base, h, io.closes, io.renames);
      F.AbortKeepsSound(n.disk, h);
      F.AbortTidy(n.disk, base, h);
    }
  }

  lemma StepTidy(lib: Library, n: Inbox, e: Event, base: map<string, Bytes>)
    requires Kept(n, base)
    ensures Kept(Next(lib, n, e), base)
  {
    hide OnStart, OnChunk, OnEnd, F.Sound, F.Tidy, AbortAll;
    match e
    case Expires(now) => AbortAllTidy(n.disk, base, set id | id in Abandoned(n, now) :: n.incoming[id].writer);
    case Arrives(m, now, io) =>
      var plain := OpenFile(n.key, m);
      if plain.Some? {
        StartTidy(lib, n, m, plain.value, now, io, base);
        ChunkTidy(n, m, plain.value, now, io, base);
        EndTidy(lib, n, m, plain.value, io, base);
      }
  }

  /** In every run, repeated starts included, no file that was in the folder is touched, and
      no temporary file is left behind: a dotted file was there before or belongs to a
      writer that is still open. */
  lemma {:induction false} FolderStaysTidy(lib: Library, n: Inbox, es: seq<Event>, base: map<string, Bytes>)
    requires F.Sound(n.disk) && F.Tidy(n.disk, base)
    ensures F.Sound(After(lib, n, es).disk) && F.Tidy(After(lib, n, es).disk, base)
    decreases |es|
  {
    hide F.Sound, F.Tidy, Next;
    if es != [] {
      StepTidy(lib, n, es[0], base);
      FolderStaysTidy(lib, Next(lib, n, es[0]), es[1..], base);
    }
  }

  lemma IdleIsTidy(n: Inbox)
    requires Idle(n)
    ensures F.Sound(n.disk) && F.Tidy(n.disk, n.disk.files)
  {}

  // ---- How every writer ends ----

  /** Exactly one transfer has the writer. */
  ghost predicate InTableOnce(n: Inbox, h: F.Handle) {
    exists id :: id in n.incoming && n.incoming[id].writer == h && forall x | x in n.incoming && n.incoming[x].writer == h :: x == id
  }

  lemma IdleIsBooked(n: Inbox)
    requires Idle(n)
    ensures Lifecycle(n)
  {}

  /** In every run from an idle device, each writer ever begun has ended, was reported
      once, and its temporary file is gone, so that a file of that name can only be
      another open writer's; or it is open, unreported and its temporary file on disk,
      and then it is in the table, once, unless a start displaced it. What was in the
      folder before is there as it was. */
  lemma EveryTransferEndsOnce(lib: Library, n: Inbox, es: seq<Event>, h: F.Handle)
    requires Idle(n)
    ensures var n' := After(lib, n, es);
            h in n'.disk.writers ==>
              if n'.disk.writers[h].done
              then n'.told[h] == 1 && (forall id | id in n'.incoming :: n'.incoming[id].writer != h)
                   && (n'.disk.writers[h].temp in n'.disk.files ==> F.Owned(n'.disk, n'.disk.writers[h].temp))
              else n'.told[h] == 0 && n'.disk.writers[h].temp in n'.disk.files
                   && (InTableOnce(n', h) <==> !DisplacedIn(lib, n, es, h))
    ensures forall f | f in n.disk.files :: f in After(lib, n, es).disk.files && After(lib, n, es).disk.files[f] == n.disk.files[f]
  {
    IdleIsBooked(n);
    StraysStay(lib, n, es, h);
    IdleIsTidy(n);
    FolderStaysTidy(lib, n, es, n.disk.files);
    hide After, DisplacedIn;
    var n' := After(lib, n, es);
    if h in n'.disk.writers && !n'.disk.writers[h].done {
      assert F.Open(n'.disk, h);
      if !Stray(n', h) {
        var x :| x in n'.incoming && n'.incoming[x].writer == h;
      }
    }
  }

  // ---- A run that leaks ----

  lemma TempNamesDiffer(a: string, b: string)
    requires a != b
    ensures F.TempName(a) != F.TempName(b)
  {
    var n := |".voidbridge-"|;
    assert F.TempName(a)[n..|F.TempName(a)| - 5] == a && F.TempName(b)[n..|F.TempName(b)| - 5] == b;
  }

  /** The disk works, with `random` in the temporary name. */
  function Fine(random: string): Io {
    Io(Some(random), None, true, true, "")
  }

  /** The start of any transfer, delivered twice to an idle device, leaves the first
      writer open, and nothing that follows ever closes it. */
  lemma AnyStartTwiceLeaks(lib: Library, n: Inbox, job: Job, r1: string, r2: string, now: int, es: seq<Event>)
    requires Idle(n) && n.receives && n.me == job.to && n.key == job.key
    requires lib.decode(lib.encode(job.meta)) == Some(job.meta) && job.meta.size >= 0
    requires r1 != r2 && F.TempName(r1) !in n.disk.files && F.TempName(r2) !in n.disk.files
    ensures var twice := [Arrives(StartOf(lib, job), now, Fine(r1)), Arrives(StartOf(lib, job), now, Fine(r2))];
            var n' := After(lib, After(lib, n, twice), es);
            Stray(n', n.disk.begun) && !Lifecycle(n')
  {
    var e1, e2 := Arrives(StartOf(lib, job), now, Fine(r1)), Arrives(StartOf(lib, job), now, Fine(r2));
    IdleIsBooked(n);
    hide Next, Booked, Stray, Displaces, StartOf, Idle, F.TempName;
    SecondStartDisplaces(lib, n, job, r1, r2, now);
    var n1 := Next(lib, n, e1);
    StepKeeps(lib, n, e1);
    StepKeeps(lib, n1, e2);
    var n2 := Next(lib, n1, e2);
    TwoSteps(lib, n, e1, e2);
    hide After;
    StraysStay(lib, n2, es, n.disk.begun);
  }

  lemma TwoSteps(lib: Library, n: Inbox, e1: Event, e2: Event)
    ensures After(lib, n, [e1, e2]) == Next(lib, Next(lib, n, e1), e2)
  {
    hide Next;
    assert [e1, e2][1..] == [e2] && [e2][1..] == [];
    assert After(lib, n, [e1, e2]) == After(lib, Next(lib, n, e1), [e2]);
    assert After(lib, Next(lib, n, e1), [e2]) == After(lib, Next(lib, Next(lib, n, e1), e2), []);
  }

  lemma SecondStartDisplaces(lib: Library, n: Inbox, job: Job, r1: string, r2: string, now: int)
    requires n.receives && n.me == job.to && n.key == job.key
    requires lib.decode(lib.encode(job.meta)) == Some(job.meta) && job.meta.size >= 0
    requires r1 != r2 && F.TempName(r1) !in n.disk.files && F.TempName(r2) !in n.disk.files
    ensures var n1 := Next(lib, n, Arrives(StartOf(lib, job), now, Fine(r1)));
            Displaces(lib, n1, Arrives(StartOf(lib, job), now, Fine(r2)), n.disk.begun)
  {
    TakesStart(lib, n, job, r1, now);
    TempNamesDiffer(r1, r2);
    StartOpens(lib, job);
    hide Next, StartOf, OpenFile, F.TempName;
  }

  lemma StartOpens(lib: Library, job: Job)
    ensures OpenFile(job.key, StartOf(lib, job)) == Some(lib.encode(job.meta))
    ensures StartOf(lib, job).mtype == TYPE_FILE_START && StartOf(lib, job).id == job.id && StartOf(lib, job).to == job.to
  {}

  lemma TakesStart(lib: Library, n: Inbox, job: Job, random: string, now: int)
    requires n.receives && n.me == job.to && n.key == job.key && F.TempName(random) !in n.disk.files
    requires lib.decode(lib.encode(job.meta)) == Some(job.meta) && job.meta.size >= 0
    ensures var n' := Next(lib, n, Arrives(StartOf(lib, job), now, Fine(random)));
            && n' == n.(disk := n'.disk, incoming := n'.incoming)
            && job.id in n'.incoming && n'.incoming[job.id].writer == n.disk.begun
            && n'.disk.files == n.disk.files[F.TempName(random) := []]
  {
    StartOpens(lib, job);
    StartIsNoAck();
    hide StartOf, OpenFile, Naming.SafeName, F.TempName;
  }
}
