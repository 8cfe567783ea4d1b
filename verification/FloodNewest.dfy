/** What the order on clips is for: the copy made last, by the clock, is the one everyone
    ends up with. */
module FloodNewest {
  import opened Basics
  import opened Wire
  import opened Sync
  import opened Flood
  import opened Convergence
  import opened FloodTheorems
  import opened FloodOrder
  import opened FloodStale
  import Relay

  /** The clip a copy made, if it made one. */
  ghost predicate Makes(w: World, e: Event, m: Message)
    requires Enabled(w, e)
  {
    Next(w, e).issued != w.issued && m in Next(w, e).issued && m !in w.issued
  }

  /** Copied later than any clip so far was stamped. */
  predicate Latest(w: World, e: Event) {
    e.Copy? && forall m | m in w.issued :: m.time < e.now
  }

  /** A copy made after every clip there is, by the clock, is stamped with its own time, opens
      to what was copied and beats them all. */
  lemma LatestBeatsAll(w: World, e: Event, m: Message)
    requires Clips(w) && Enabled(w, e) && Latest(w, e) && Makes(w, e, m)
    ensures m.time == e.now && OpenClip(w.key, m) == Some(e.c.Payload())
    ensures Next(w, e).issued == w.issued + {m} && Next(w, e).staged == w.staged + multiset{Staged(e.p, m)} && Next(w, e).log == w.log
    ensures forall x | x in w.issued :: Beats(m, x)
  {
    var d := w.parties[e.p].device;
    assert CurAt(w, e.p) == d.current;
    CopyIsStampedNow(d, e.c, e.now, e.id, e.me, e.name, w.key);
    hide Originate, OpenClip, Genuine;
  }

  /** Nobody copies anything. */
  predicate NoCopies(es: seq<Event>) {
    forall e | e in es :: !e.Copy?
  }

  /** The clip still waits to be stored, or it has been. */
  ghost predicate Underway(w: World, p: PartyId, m: Message) {
    Staged(p, m) in w.staged || (p in w.log && m in w.log[p])
  }

  lemma PublishLists(w: World, s: Staged)
    requires Enabled(w, Publishing(s))
    ensures var w' := Next(w, Publishing(s));
            w'.issued == w.issued && w'.staged == w.staged - multiset{s} && s.at in w'.log && s.msg in w'.log[s.at]
  {
    hide Remember, Sends;
  }

  lemma StepUnderway(w: World, e: Event, p: PartyId, m: Message)
    requires Enabled(w, e) && !e.Copy? && Underway(w, p, m)
    ensures Next(w, e).issued == w.issued && Underway(Next(w, e), p, m)
  {
    HistoryGrows(w, e);
    hide Next, Enabled;
    if e.Publishing? {
      PublishLists(w, e.s);
    } else {
      NothingNewAround(w, e);
    }
  }

  lemma {:induction false} RunUnderway(w: World, es: seq<Event>, p: PartyId, m: Message)
    requires Runs(w, es) && NoCopies(es) && Underway(w, p, m)
    ensures After(w, es).issued == w.issued && Underway(After(w, es), p, m)
    decreases |es|
  {
    hide Next, Enabled, Underway;
    if es != [] {
      assert es[0] in es;
      StepUnderway(w, es[0], p, m);
      RunUnderway(Next(w, es[0]), es[1..], p, m);
    }
  }

  /** Whoever ever took a clip that beats all others still has it. */
  lemma NewestIsHeld(w: World, p: PartyId, m: Message)
    requires Clips(w) && Forward(w) && p in w.parties && p in w.log && m in w.log[p]
    requires forall x | x in w.issued && x != m :: Beats(m, x)
    ensures CurAt(w, p) == Some(m)
  {
    LogIsCovered(w, p, m);
    hide Forward, Genuine, Beats;
    var cur := CurAt(w, p).value;
    assert cur == m || Beats(m, cur);
  }

  lemma LatestUnderway(w: World, e: Event, m: Message)
    requires Inv(w) && Enabled(w, e) && Latest(w, e) && Makes(w, e, m)
    ensures m.time == e.now && OpenClip(w.key, m) == Some(e.c.Payload())
    ensures Inv(Next(w, e)) && Underway(Next(w, e), e.p, m)
    ensures forall x | x in Next(w, e).issued && x != m :: Beats(m, x)
  {
    LatestBeatsAll(w, e, m);
    CopyIsCalm(w, e);
    StepKeeps(w, e);
    hide Inv, OpenClip, Beats;
  }

  lemma CopyIsCalm(w: World, e: Event)
    requires Latest(w, e)
    ensures Calm(w, e)
  {}

  lemma NewestEverywhere(w: World, p: PartyId, m: Message, path: seq<PartyId>)
    requires Inv(w) && Settled(w) && Underway(w, p, m) && Staged(p, m) !in w.staged
    requires forall x | x in w.issued && x != m :: Beats(m, x)
    requires path != [] && path[0] == p && Chain(w, path)
    ensures forall q | q in path :: q in w.parties && CurAt(w, q) == Some(m)
  {
    assert p in path;
    hide Shape, Clips, Behind, Remembered, Reached, Sourced, Forward, Settled, Beats;
    NewestIsHeld(w, p, m);
    SettledIsQuiet(w);
    QuietAgrees(w, path);
  }

  /** The newest copy wins. Take any calm run of any network, then a copy made at a time
      later than every clip so far was stamped, then any calm run in which nobody copies
      anything and in which that clip is stored, until nothing is left to deliver. Then all
      the parties on any chain of links from the device it was made on hold that very
      clip: stamped with the time of the copy, opening to what was copied. */
  lemma LastCopyWins(w0: World, es: seq<Event>, e: Event, m: Message, more: seq<Event>, path: seq<PartyId>)
    requires Fresh(w0) && Runs(w0, es) && CalmRun(w0, es)
    requires Enabled(After(w0, es), e) && Latest(After(w0, es), e) && Makes(After(w0, es), e, m)
    requires var w := Next(After(w0, es), e);
             Runs(w, more) && CalmRun(w, more) && NoCopies(more) && Settled(After(w, more)) && Staged(e.p, m) !in After(w, more).staged
    requires path != [] && path[0] == e.p && Chain(After(Next(After(w0, es), e), more), path)
    ensures m.time == e.now && OpenClip(w0.key, m) == Some(e.c.Payload())
    ensures var w := After(Next(After(w0, es), e), more);
            forall p | p in path :: p in w.parties && CurAt(w, p) == Some(m)
  {
    assert e.Copy?;
    hide Next, Fresh, Settled, Enabled, Latest, Makes, Inv, Chain;
    FreshInv(w0);
    RunKeeps(w0, es);
    KeyStays(w0, es);
    var w1 := After(w0, es);
    LatestUnderway(w1, e, m);
    var w2 := Next(w1, e);
    RunKeeps(w2, more);
    RunUnderway(w2, more, e.p, m);
    NewestEverywhere(After(w2, more), e.p, m, path);
  }

  lemma StepKey(w: World, e: Event)
    requires Enabled(w, e)
    ensures Next(w, e).key == w.key
  {
    hide Originate, Sends, Remember, Check, Commit, OpenClip, ContentFrom, Relay.Accept;
  }

  lemma {:induction false} KeyStays(w: World, es: seq<Event>)
    requires Runs(w, es)
    ensures After(w, es).key == w.key
    decreases |es|
  {
    hide Next, Enabled;
    if es != [] {
      StepKey(w, es[0]);
      KeyStays(Next(w, es[0]), es[1..]);
    }
  }
}
