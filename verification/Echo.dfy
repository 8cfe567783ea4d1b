/** Echo suppression: a device never takes its own clipboard writes for new copies. */
module Echo {
  import opened Basics
  import opened Wire
  import opened Sync

  /** One device with its clipboard. `copies` counts what the user put on the clipboard,
      `originated` the clips the device sent out as new, and `dirty` is set while the
      clipboard holds something the user put there that LocalCopy has not seen. */
  datatype Local = Local(device: Device, board: Board, copies: nat, originated: nat, dirty: bool)

  datatype Event =
    | UserCopies(content: Option<Content>)
    | Recopies(c: Content, now: int, id: string, io: Io)
    | PollTick(now: int, id: string, io: Io)
    | PlatformNotice(now: int, id: string)
    | Receives(l: LinkId, m: Message, io: Io)
    | Pauses(paused: bool)

  const KEY: Key := 0

  function Count(m: Option<Message>): nat {
    if m.Some? then 1 else 0
  }

  function PollStep(s: Local, now: int, id: string, io: Io): Local {
    var (d, m, ls) := Poll(s.device, s.board, now, id, "me", "", KEY, io);
    var looked := io.counter && s.board.changes != s.device.lastSeq && io.read;
    s.(device := d, originated := s.originated + Count(m), dirty := s.dirty && !looked)
  }

  /** One whole call at a time. A PlatformNotice is the platform reporting the current
      clipboard contents of its own accord, as Android does. */
  function Next(s: Local, e: Event): Local {
    match e
    case UserCopies(content) =>
      s.(board := Board(content, s.board.changes + 1), copies := s.copies + 1, dirty := true)
    case Recopies(c, now, id, io) =>
      if !io.write then s
      else PollStep(s.(board := Write(s.board, c), copies := s.copies + 1, dirty := true), now, id, io)
    case PollTick(now, id, io) => PollStep(s, now, id, io)
    case PlatformNotice(now, id) =>
      if s.board.content.None? then s
      else
        var (d, m, ls) := LocalCopy(s.device, s.board.content.value, now, id, "me", "", KEY);
        s.(device := d, originated := s.originated + Count(m), dirty := false)
    case Receives(l, m, io) =>
      var (d, b, ls) := HandleClip(s.device, s.board, l, m, KEY, io);
      s.(device := d, board := b, dirty := s.dirty && b == s.board)
    case Pauses(paused) => s.(device := s.device.(paused := paused))
  }

  /** The device has just started and read its clipboard once (Run). */
  predicate Started(s: Local) {
    && s.copies == 0 && s.originated == 0 && !s.dirty && s.device.lastSeq == s.board.changes
    && s.device.lastHash == if s.board.content.Some? then Some(s.board.content.value.Digest()) else None
  }

  function After(s: Local, es: seq<Event>): Local
    decreases |es|
  {
    if es == [] then s else After(Next(s, es[0]), es[1..])
  }

  /** Unless the user has just copied something, the device recognises what is on its
      clipboard. */
  predicate Recognised(s: Local) {
    s.board.content.None? || !s.board.content.value.Valid() || Some(s.board.content.value.Digest()) == s.device.lastHash
  }

  /** The digest of the clip the device adopts from this message, if it does. */
  function Takes(s: Local, m: Message): Option<Hash> {
    if !Check(s.device, m).1 || OpenClip(KEY, m).None? then None
    else
      var c := ContentFrom(m, OpenClip(KEY, m).value);
      if c.None? then None else Some(c.value.Digest())
  }

  /** A clip is adopted, cannot be written, and the clipboard goes on holding something
      else that could be synced. */
  predicate Loses(s: Local, e: Event) {
    && e.Receives? && !e.io.write && Takes(s, e.m).Some?
    && s.board.content.Some? && s.board.content.value.Valid() && Some(s.board.content.value.Digest()) != Takes(s, e.m)
  }

  /** What is on the clipboard is marked sensitive and the device keeps such copies. */
  predicate HeldBack(s: Local) {
    s.device.skipSensitive && s.board.content.Some? && s.board.content.value.sensitive
  }

  /** Losing recognition does no harm while the user's own copy is still waiting to be
      looked at, while the contents are held back, nor, on a device that is only polled,
      while its counter is up to date. */
  predicate Harmless(s: Local, e: Event, polled: bool) {
    Loses(s, e) ==> s.dirty || HeldBack(s) || (polled && s.device.lastSeq == s.board.changes)
  }

  /** The device will not take what is on its clipboard for a new copy, or it is one. */
  predicate Guarded(s: Local, polled: bool) {
    s.dirty || Recognised(s) || HeldBack(s) || (polled && s.device.lastSeq == s.board.changes)
  }

  predicate Counted(s: Local) {
    s.originated + (if s.dirty then 1 else 0) <= s.copies
  }

  /** LocalCopy of content the device recognises sends nothing and changes nothing. */
  lemma RecognisedIsNotNew(d: Device, c: Content, now: int, id: string)
    requires !c.Valid() || Some(c.Digest()) == d.lastHash
    ensures LocalCopy(d, c, now, id, "me", "", KEY) == (d, None, {})
  {}

  /** After LocalCopy the device recognises the content, whether it sent it or not. */
  lemma CopiedIsRecognised(d: Device, c: Content, now: int, id: string)
    requires c.Valid()
    ensures LocalCopy(d, c, now, id, "me", "", KEY).0.lastHash == Some(c.Digest())
  {}

  /** What a remote clip does, by whether it is adopted and written. */
  lemma ReceiveCases(s: Local, l: LinkId, m: Message, io: Io)
    ensures var s', t := Next(s, Receives(l, m, io)), Takes(s, m);
            && s'.copies == s.copies && s'.originated == s.originated && s'.dirty == (s.dirty && s'.board == s.board)
            && (t.None? ==> s'.board == s.board && s'.device.lastHash == s.device.lastHash && s'.device.lastSeq == s.device.lastSeq)
            && s'.device.paused == s.device.paused && s'.device.skipSensitive == s.device.skipSensitive
            && (t.Some? ==> s'.device.lastHash == t && !s.device.paused)
            && (t.Some? && io.write && t != s.device.lastHash ==>
                  s'.board.changes == s.board.changes + 1 && s'.board.content.Some? && Some(s'.board.content.value.Digest()) == t)
            && (t.Some? && (!io.write || t == s.device.lastHash) ==> s'.board == s.board && s'.device.lastSeq == s.device.lastSeq)
  {
    hide Remember, OpenClip;
  }

  /** From a state in which the device recognises its clipboard, a step makes it stop doing
      so exactly when an adopted clip could not be written over something else. */
  lemma RecognitionLost(s: Local, e: Event)
    requires !s.dirty && Recognised(s) && !e.UserCopies? && !e.Recopies?
    ensures !Recognised(Next(s, e)) <==> Loses(s, e)
  {
    if e.Receives? {
      ReceiveCases(s, e.l, e.m, e.io);
      hide Next, Takes;
    }
  }

  /** Then, and only then, does the platform's next report of the clipboard come out as a
      new clip, unless the device is set to hold it back. */
  lemma NoticeEchoes(s: Local, now: int, id: string)
    ensures var s' := Next(s, PlatformNotice(now, id));
            s'.originated == s.originated + 1 <==>
            !Recognised(s) && !s.device.paused && !HeldBack(s)
  {
    hide SealClip, Stamp;
  }

  /** On a device that is polled this takes a counter that has moved as well. */
  lemma PollEchoes(s: Local, now: int, id: string, io: Io)
    ensures var s' := Next(s, PollTick(now, id, io));
            s'.originated == s.originated + 1 <==>
            io.counter && io.read && s.board.changes != s.device.lastSeq && !Recognised(s) && !s.device.paused && !HeldBack(s)
  {
    hide SealClip, Stamp;
  }

  lemma StepExact(s: Local, e: Event, polled: bool)
    requires Guarded(s, polled) && Counted(s) && (polled ==> !e.PlatformNotice?)
    ensures Counted(Next(s, e))
    ensures Guarded(Next(s, e), polled) <==> Harmless(s, e, polled)
  {
    if e.Receives? {
      ReceiveCases(s, e.l, e.m, e.io);
      hide Next, Takes;
    } else {
      hide SealClip, Stamp;
    }
  }

  predicate HarmlessRun(s: Local, es: seq<Event>, polled: bool)
    decreases |es|
  {
    es == [] || (Harmless(s, es[0], polled) && HarmlessRun(Next(s, es[0]), es[1..], polled))
  }

  predicate OnlyPolled(es: seq<Event>) {
    forall e | e in es :: !e.PlatformNotice?
  }

  lemma {:induction false} RunCounted(s: Local, es: seq<Event>, polled: bool)
    requires Guarded(s, polled) && Counted(s) && HarmlessRun(s, es, polled) && (polled ==> OnlyPolled(es))
    ensures Counted(After(s, es)) && Guarded(After(s, es), polled)
    decreases |es|
  {
    hide Next, Guarded, Counted, Harmless;
    if es != [] {
      assert es[0] in es;
      StepExact(s, es[0], polled);
      RunCounted(Next(s, es[0]), es[1..], polled);
    }
  }

  /** A device never sends more new clips than its user made copies, whatever it receives
      and however often its clipboard is polled or reported, as long as every step is
      harmless. */
  lemma NoMoreClipsThanCopies(s: Local, es: seq<Event>, polled: bool)
    requires Started(s) && HarmlessRun(s, es, polled) && (polled ==> OnlyPolled(es))
    ensures After(s, es).originated <= After(s, es).copies
  {
    RunCounted(s, es, polled);
  }

  predicate UserIdle(es: seq<Event>) {
    forall e | e in es :: !e.UserCopies? && !e.Recopies?
  }

  /** A remote clip, once applied, never comes back out as a new one: with the user
      idle, nothing whatever makes the device originate a clip. Two devices cannot keep
      passing their own writes back and forth. */
  lemma {:induction false} IdleDeviceOriginatesNothing(s: Local, es: seq<Event>, polled: bool)
    requires !s.dirty && Guarded(s, polled) && HarmlessRun(s, es, polled) && UserIdle(es) && (polled ==> OnlyPolled(es))
    ensures After(s, es).originated == s.originated && After(s, es).copies == s.copies
    decreases |es|
  {
    if es != [] {
      var e := es[0];
      assert e in es && !e.UserCopies? && !e.Recopies?;
      IdleStep(s, e, polled);
      hide Next, Guarded, Harmless;
      IdleDeviceOriginatesNothing(Next(s, e), es[1..], polled);
    }
  }

  /** Something that happens without the user; a polled device gets no reports. */
  predicate ByItself(e: Event, polled: bool) {
    !e.UserCopies? && !e.Recopies? && (polled ==> !e.PlatformNotice?)
  }

  lemma IdleStep(s: Local, e: Event, polled: bool)
    requires !s.dirty && Guarded(s, polled) && ByItself(e, polled)
    ensures var s' := Next(s, e);
            && !s'.dirty && s'.originated == s.originated && s'.copies == s.copies
            && (Harmless(s, e, polled) ==> Guarded(s', polled))
  {
    if e.Receives? {
      ReceiveCases(s, e.l, e.m, e.io);
      hide Next, Takes;
    } else {
      hide SealClip, Stamp;
    }
  }

  /** Nothing that may happen by itself now makes the device originate a clip. */
  ghost predicate Silent(s: Local, polled: bool) {
    forall e | ByItself(e, polled) :: Next(s, e).originated == s.originated
  }

  ghost predicate AlwaysSilent(s: Local, es: seq<Event>, polled: bool)
    decreases |es|
  {
    Silent(s, polled) && (es == [] || AlwaysSilent(Next(s, es[0]), es[1..], polled))
  }

  /** After a step that does harm, the platform's next report, or the next poll of a
      polled device, sends out a clip that nobody copied. */
  lemma HarmEchoes(s: Local, e: Event, polled: bool)
    requires !Harmless(s, e, polled)
    ensures !Silent(Next(s, e), polled)
  {
    var s' := Next(s, e);
    ReceiveCases(s, e.l, e.m, e.io);
    var io := Io(true, true, true, true);
    NoticeEchoes(s', 0, "");
    PollEchoes(s', 0, "", io);
    var e' := if polled then PollTick(0, "", io) else PlatformNotice(0, "");
    hide Next, Takes;
    assert ByItself(e', polled) && Next(s', e').originated == s'.originated + 1;
  }

  lemma GuardedIsSilent(s: Local, polled: bool)
    requires !s.dirty && Guarded(s, polled)
    ensures Silent(s, polled)
  {
    hide Guarded, Next, Harmless;
    forall e | ByItself(e, polled) ensures Next(s, e).originated == s.originated { IdleStep(s, e, polled); }
  }

  /** While the user is idle, no echo is possible at any point of a run if and only if all
      its steps are harmless. */
  lemma {:induction false} SilentExactly(s: Local, es: seq<Event>, polled: bool)
    requires !s.dirty && Guarded(s, polled) && forall e | e in es :: ByItself(e, polled)
    ensures AlwaysSilent(s, es, polled) <==> HarmlessRun(s, es, polled)
    decreases |es|
  {
    GuardedIsSilent(s, polled);
    hide Guarded, Next, Harmless, Silent, ByItself;
    if es != [] {
      assert es[0] in es;
      IdleStep(s, es[0], polled);
      if Harmless(s, es[0], polled) {
        SilentExactly(Next(s, es[0]), es[1..], polled);
      } else {
        HarmEchoes(s, es[0], polled);
        assert !AlwaysSilent(Next(s, es[0]), es[1..], polled);
      }
    }
  }

  function ClipOf(id: string, time: int, b: byte): Message {
    SealClip(KEY, Message(TYPE_CLIP, id, "you", "", time, CLIP_TEXT, "", "", 0, "", NoBody), [b])
  }

  /** One failed write is enough where the platform reports the clipboard: the device
      holds `a`, cannot write the newer `b`, and is then told of `a`. */
  lemma FailedWriteEchoes() returns (s: Local, es: seq<Event>)
    ensures Started(s) && After(s, es).copies == 0 && After(s, es).originated == 1
  {
    var ca := Content(CLIP_TEXT, [1], [], "", false);
    s := Local(Device(false, true, {}, None, [], Some(ca.Digest()), 0), Board(Some(ca), 0), 0, 0, false);
    var b := ClipOf("b", 2, 2);
    var cb := Content(CLIP_TEXT, [2], [], "", false);
    var e1, e2 := Receives(7, b, Io(true, true, false, true)), PlatformNotice(9, "c");
    es := [e1, e2];
    assert OpenClip(KEY, b) == Some([2]) && ContentFrom(b, [2]) == Some(cb);
    assert [1][0] != [2][0] && ca.Digest().data == [1] && cb.Digest().data == [2];
    var s1 := Next(s, e1);
    assert s1.board == s.board && s1.device.lastHash == Some(cb.Digest()) && !Recognised(s1);
    NoticeEchoes(s1, 9, "c");
    assert es[1..] == [e2] && [e2][1..] == [];
    assert After(s, es) == After(s1, [e2]) == After(Next(s1, e2), []);
  }
}
