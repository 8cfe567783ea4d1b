/** What the sender of a file is told: a device never refuses, breaks off or finishes a
    transfer in silence (internal/node/files.go, handleFile). */
module Replies {
  import opened Basics
  import opened Wire
  import opened Transfer
  import D = Delivery
  import F = Folder

  /** A start that opens under the key but begins no writer. */
  predicate RefusesStart(n: Inbox, m: Message, n': Inbox) {
    m.mtype == TYPE_FILE_START && m.to == n.me && OpenFile(n.key, m).Some? && n'.disk.begun == n.disk.begun
  }

  /** The message takes its transfer out of the table. */
  predicate Ends(n: Inbox, m: Message, n': Inbox) {
    m.id in n.incoming && m.id !in n'.incoming
  }

  /** An ack to the sender of `m`, and whether it says that all is well. */
  predicate Tells(n: Inbox, m: Message, r: Message, ok: bool) {
    r.mtype == TYPE_FILE_ACK && r.id == m.id && r.origin == n.me && r.to == m.origin && (r.error == "" <==> ok)
  }

  lemma ReasonsSay(why: string)
    ensures REFUSED != "" && BAD_HEADER != "" && OUT_OF_ORDER != "" && TOO_MUCH != "" && INCOMPLETE != ""
    ensures CANNOT_SAVE + why != "" && CANNOT_WRITE + why != ""
  {
    assert |REFUSED| > 0 && |BAD_HEADER| > 0 && |OUT_OF_ORDER| > 0 && |TOO_MUCH| > 0 && |INCOMPLETE| > 0;
    assert |CANNOT_SAVE + why| > 0 && |CANNOT_WRITE + why| > 0;
  }

  /** Exactly the starts that begin no writer and the messages that end their transfer are
      answered: with one ack to the sender, which is empty if and only if a file was saved. */
  lemma EveryEndIsAnswered(lib: Library, n: Inbox, m: Message, now: int, io: Io)
    ensures var (n', replies, saved) := Handle(lib, n, m, now, io);
            && |replies| == (if RefusesStart(n, m, n') || Ends(n, m, n') then 1 else 0)
            && (forall r | r in replies :: Tells(n, m, r, saved.Some?))
            && (replies != [] ==> m.to == n.me && OpenFile(n.key, m).Some?)
            && (saved.Some? ==> Ends(n, m, n'))
  {
    D.KindsDiffer();
    ReasonsSay(io.why);
    hide F.Write, F.Commit, F.Abort, F.Written, OpenFile, Naming.SafeName, F.TempName;
  }

  // ---- Why ----

  /** What a start is answered. */
  lemma WhyStartsFail(lib: Library, n: Inbox, m: Message, now: int, io: Io)
    requires m.to == n.me && m.mtype == TYPE_FILE_START && OpenFile(n.key, m).Some?
    ensures var (n', replies, saved) := Handle(lib, n, m, now, io);
            var meta := lib.decode(OpenFile(n.key, m).value);
            && (replies != [] <==> !(n.receives && meta.Some? && meta.value.size >= 0
                                     && io.temp.Some? && F.TempName(io.temp.value) !in n.disk.files))
            && (replies != [] ==>
                  replies[0].error == (if !n.receives then "that device can't receive files"
                                       else if meta.None? || meta.value.size < 0 then "bad file header"
                                       else "the other device couldn't save the file: " + io.why))
  {
    D.KindsDiffer();
    hide OpenFile, Naming.SafeName, F.TempName;
  }

  /** A chunk is taken if and only if it is the next one, keeps within the announced size
      and can be written; otherwise its transfer ends. */
  lemma WhyChunksFail(lib: Library, n: Inbox, m: Message, now: int, io: Io)
    requires m.to == n.me && m.mtype == TYPE_FILE_CHUNK && OpenFile(n.key, m).Some? && m.id in n.incoming
    ensures var (n', replies, saved) := Handle(lib, n, m, now, io);
            var t, plain := n.incoming[m.id], OpenFile(n.key, m).value;
            var fits := t.got + |plain| <= t.meta.size;
            && (m.id in n'.incoming <==> m.seqNo == t.next && fits && F.Written(n.disk, t.writer).Some? && io.short.None?)
            && (m.id in n'.incoming ==> replies == [] && n'.incoming[m.id].next == t.next + 1 && n'.incoming[m.id].active == now
                                        && F.Written(n'.disk, t.writer) == Some(F.Written(n.disk, t.writer).value + plain))
            && (m.id !in n'.incoming ==>
                  |replies| == 1
                  && replies[0].error == (if m.seqNo != t.next then "file data arrived out of order"
                                          else if !fits then "more data than announced"
                                          else "the other device couldn't write the file: " + io.why))
  {
    D.KindsDiffer();
    var t, plain := n.incoming[m.id], OpenFile(n.key, m).value;
    ChunkWrites(n.disk, t.writer, plain, io.short);
    hide OpenFile, F.Write, F.Written;
  }

  lemma ChunkWrites(d: F.Disk, h: F.Handle, p: Bytes, short: Option<nat>)
    ensures var (d', ok) := F.Write(d, h, p, short);
            && (ok <==> F.Written(d, h).Some? && short.None?)
            && (ok ==> F.Written(d', h) == Some(F.Written(d, h).value + p))
  {}

  /** An end is refused if and only if something is missing or differs, and then nothing is
      saved; otherwise all depends on the disk. */
  lemma WhyEndsFail(lib: Library, n: Inbox, m: Message, now: int, io: Io)
    requires m.to == n.me && m.mtype == TYPE_FILE_END && OpenFile(n.key, m).Some? && m.id in n.incoming
    requires F.Written(n.disk, n.incoming[m.id].writer).Some?
    ensures var (n', replies, saved) := Handle(lib, n, m, now, io);
            var t := n.incoming[m.id];
            var whole := m.seqNo == t.next && t.got == t.meta.size && OpenFile(n.key, m).value == lib.sum(t.fed);
            && m.id !in n'.incoming && |replies| == 1
            && (saved.Some? <==> whole && io.closes && io.renames)
            && replies[0].error == (if !whole then "the file arrived incomplete"
                                    else if io.closes && io.renames then ""
                                    else "the other device couldn't save the file: " + io.why)
  {
    D.KindsDiffer();
    hide OpenFile, Naming.UniqueName;
  }

  // ---- Over a network ----

  lemma {:induction false} WireGrows(w: D.World, es: seq<D.Event>)
    requires D.Runs(w, es)
    ensures w.wire <= D.After(w, es).wire
    decreases |es|
  {
    hide Handle, Expire, Script;
    if es != [] { WireGrows(D.Next(w, es[0]), es[1..]); }
  }

  lemma ArriveAnswers(w: D.World, device: string, m: Message, now: int, io: Io)
    requires D.Inv(w) && D.Enabled(w, D.Arrives(device, m, now, io))
    requires var n, n' := w.boxes[device], D.Next(w, D.Arrives(device, m, now, io)).boxes[device];
             RefusesStart(n, m, n') || Ends(n, m, n')
    ensures m.id in w.jobs
    ensures exists r :: r in D.Next(w, D.Arrives(device, m, now, io)).wire && r.mtype == TYPE_FILE_ACK && r.id == m.id
                        && r.to == w.jobs[m.id].job.me && (r.error == "" <==> Handle(w.lib, w.boxes[device], m, now, io).2.Some?)
  {
    D.ArriveFacts(w, device, m);
    hide D.Boxes, D.Wires, D.Mails, D.Outcomes, D.BoxOk;
    EveryEndIsAnswered(w.lib, w.boxes[device], m, now, io);
    hide Handle, D.Authentic, D.JobsOk;
    var id, k := D.OpenedIsScripted(w.lib, w.key, w.jobs, m);
    var r := Handle(w.lib, w.boxes[device], m, now, io).1[0];
    assert r in Handle(w.lib, w.boxes[device], m, now, io).1;
    assert r in D.Next(w, D.Arrives(device, m, now, io)).wire;
  }

  /** In every run, whenever a device turns a start down or a message ends a transfer
      there, an ack for it is on the wire from then on, addressed to the device that sent
      the file; and it is a success ack if and only if the file was saved by this message. */
  lemma NobodyIsDroppedInSilence(w0: D.World, es: seq<D.Event>, device: string, m: Message, now: int, io: Io, more: seq<D.Event>)
    requires D.Fresh(w0) && D.Runs(w0, es) && D.Enabled(D.After(w0, es), D.Arrives(device, m, now, io))
    requires D.Runs(D.Next(D.After(w0, es), D.Arrives(device, m, now, io)), more)
    requires var n, n' := D.After(w0, es).boxes[device], D.Next(D.After(w0, es), D.Arrives(device, m, now, io)).boxes[device];
             RefusesStart(n, m, n') || Ends(n, m, n')
    ensures var w := D.After(w0, es);
            && m.id in w.jobs
            && exists r :: r in D.After(D.Next(w, D.Arrives(device, m, now, io)), more).wire && r.mtype == TYPE_FILE_ACK && r.id == m.id
                           && r.to == w.jobs[m.id].job.me && (r.error == "" <==> Handle(w.lib, w.boxes[device], m, now, io).2.Some?)
  {
    hide D.Inv, D.Next, D.Enabled, D.Fresh, D.Runs, D.After, Handle;
    D.FreshInv(w0);
    D.RunKeeps(w0, es);
    ArriveAnswers(D.After(w0, es), device, m, now, io);
    WireGrows(D.Next(D.After(w0, es), D.Arrives(device, m, now, io)), more);
  }

  // ---- At the sender ----

  /** Acks arriving one after another. */
  function TakeAll(lib: Library, n: Inbox, ms: seq<Message>, now: int, io: Io): Inbox
    decreases |ms|
  {
    if ms == [] then n else TakeAll(lib, Handle(lib, n, ms[0], now, io).0, ms[1..], now, io)
  }

  /** What the first of them with the id says. */
  function FirstFor(ms: seq<Message>, id: string): Option<string> {
    if ms == [] then None else if ms[0].id == id then Some(ms[0].error) else FirstFor(ms[1..], id)
  }

  lemma OneAck(lib: Library, n: Inbox, m: Message, id: string, now: int, io: Io)
    requires m.mtype == TYPE_FILE_ACK && m.to == n.me
    ensures var n' := Handle(lib, n, m, now, io).0;
            && n'.me == n.me && n'.incoming == n.incoming && n'.disk == n.disk && n'.told == n.told
            && (id in n'.acks <==> id in n.acks)
            && (id in n.acks ==> n'.acks[id] == if n.acks[id].None? && m.id == id then Some(m.error) else n.acks[id])
  {
    hide OnStart, OnChunk, OnEnd, OpenFile;
  }

  /** Of all the acks for a transfer the sender gets the first; those for a transfer it does
      not have under way change nothing. */
  lemma {:induction false} FirstAckCounts(lib: Library, n: Inbox, ms: seq<Message>, id: string, now: int, io: Io)
    requires forall m | m in ms :: m.mtype == TYPE_FILE_ACK && m.to == n.me
    ensures var n' := TakeAll(lib, n, ms, now, io);
            && n'.incoming == n.incoming && n'.disk == n.disk && n'.told == n.told
            && (id in n'.acks <==> id in n.acks)
            && (id in n.acks ==> n'.acks[id] == if n.acks[id].Some? then n.acks[id] else FirstFor(ms, id))
    decreases |ms|
  {
    hide Handle;
    if ms != [] {
      assert ms[0] in ms;
      OneAck(lib, n, ms[0], id, now, io);
      FirstAckCounts(lib, Handle(lib, n, ms[0], now, io).0, ms[1..], id, now, io);
    }
  }
}
