/** What storing a stale clip does to a network that had agreed. */
module FloodStale {
  import opened Basics
  import opened Wire
  import opened Sync
  import opened Flood
  import opened Convergence
  import opened FloodTheorems
  import opened FloodOrder
  import Relay

  /** Nothing is left to deliver. */
  ghost predicate Settled(w: World) {
    forall e | Delivery(e) :: !Enabled(w, e)
  }

  lemma SettledIsQuiet(w: World)
    requires Inv(w) && Settled(w)
    ensures Quiet(w)
  {
    if !Quiet(w) { var e := NotQuietMoves(w); }
  }

  predicate Awake(w: World, p: PartyId) {
    p in w.parties && !Paused(w.parties[p])
  }

  // ---- What deliveries leave alone ----

  /** Links stay, clips do not go back, and nothing is lost at a party that is awake. */
  ghost predicate Framed(w: World, w': World) {
    && w'.wires == w.wires && w'.parties.Keys == w.parties.Keys
    && (forall p | p in w.parties :: Ends(w'.parties[p]) == Ends(w.parties[p]) && Awake(w', p) == Awake(w, p))
    && (forall l, q, m | (l, q, m) in w'.lost && Awake(w, q) :: (l, q, m) in w.lost)
    && (forall p, m | Holds(w, p, m) :: Holds(w', p, m))
  }

  lemma AdoptFrames(w: World, p: PartyId, party: Party, m: Message, ls: set<LinkId>)
    requires p in w.parties && Newer(m, CurAt(w, p)) && Cur(party) == Some(m) && Ends(party) == Ends(w.parties[p])
    requires Awake(w.(parties := w.parties[p := party]), p) == Awake(w, p)
    ensures Framed(w, Adopt(w, p, party, m, ls))
  {
    var w' := Adopt(w, p, party, m, ls);
    forall q, x | Holds(w, q, x) ensures Holds(w', q, x) {
      if q == p && CurAt(w, p).Some? {
        NewerCovers(m, CurAt(w, p).value);
        CoversTransitive(Some(m), CurAt(w, p).value, x);
      }
    }
    hide Holds, Sends;
  }

  lemma NodeDeliverFrames(w: World, pk: Packet)
    requires Enabled(w, Deliver(pk)) && w.parties[pk.to].Node?
    ensures Framed(w, Next(w, Deliver(pk)))
  {
    NodeDeliverShape(w, pk);
    hide Next, Paused;
  }

  lemma HubDeliverFrames(w: World, pk: Packet)
    requires Enabled(w, Deliver(pk)) && w.parties[pk.to].Hub?
    ensures Framed(w, Next(w, Deliver(pk)))
  {
    hide Adopt;
    var w0 := w.(flight := w.flight - multiset{pk});
    assert Framed(w, w0);
    var (a', out) := Relay.Accept(w.parties[pk.to].acct, pk.link, pk.msg);
    if out.Some? {
      AdoptFrames(w0, pk.to, Hub(a'), pk.msg, out.value);
      FramedOn(w, w0, Adopt(w0, pk.to, Hub(a'), pk.msg, out.value));
    }
    hide Framed;
  }

  lemma FramedOn(w: World, v: World, w': World)
    requires Framed(w, v) && Framed(v, w')
    ensures Framed(w, w')
  {
    hide Holds;
  }

  lemma FinishFrames(w: World, h: Handling)
    requires Enabled(w, Finish(h))
    ensures Framed(w, Next(w, Finish(h)))
  {
    hide Adopt, OpenClip, ContentFrom;
    var w0 := w.(pending := w.pending - multiset{h});
    assert Framed(w, w0);
    if OpenClip(w.key, h.msg).Some? && ContentFrom(h.msg, OpenClip(w.key, h.msg).value).Some? {
      var c := ContentFrom(h.msg, OpenClip(w.key, h.msg).value).value;
      var (d', outcome) := Commit(w.parties[h.at].device, h.link, h.msg, c.Digest());
      if outcome.Adopted? {
        AdoptFrames(w0, h.at, Node(d'), h.msg, outcome.forward);
        FramedOn(w, w0, Adopt(w0, h.at, Node(d'), h.msg, outcome.forward));
      }
    }
    hide Framed;
  }

  lemma PublishFrames(w: World, s: Staged)
    requires Enabled(w, Publishing(s)) && Calm(w, Publishing(s))
    ensures Framed(w, Next(w, Publishing(s)))
  {
    hide Adopt, Remember;
    var w0 := w.(staged := w.staged - multiset{s});
    assert Framed(w, w0);
    var (d, ls) := Publish(w.parties[s.at].device, s.msg);
    AdoptFrames(w0, s.at, Node(d), s.msg, ls);
    FramedOn(w, w0, Adopt(w0, s.at, Node(d), s.msg, ls));
    hide Framed;
  }

  lemma {:induction false} DeliveriesFrame(w: World, ds: seq<Event>)
    requires Runs(w, ds) && Deliveries(ds)
    ensures Framed(w, After(w, ds))
    decreases |ds|
  {
    if ds != [] {
      var e := ds[0];
      assert Delivery(e);
      hide Next, Framed;
      if e.Finish? {
        FinishFrames(w, e.h);
      } else if w.parties[e.pk.to].Node? {
        NodeDeliverFrames(w, e.pk);
      } else {
        HubDeliverFrames(w, e.pk);
      }
      DeliveriesFrame(Next(w, e), ds[1..]);
      FramedOn(w, Next(w, e), After(w, ds));
    }
  }

  lemma StaysJoined(w: World, w': World, p: PartyId, q: PartyId, l: LinkId)
    requires Framed(w, w') && Joined(w, p, q, l) && Awake(w, p) && Awake(w, q)
    ensures Joined(w', p, q, l)
  {
    hide Holds, Awake;
  }

  // ---- Only a stale clip under way ----

  predicate Deliverable(w: World, pk: Packet) {
    pk.to in w.parties && pk.link in Ends(w.parties[pk.to])
  }

  /** All that can still be delivered are copies of `m`. */
  ghost predicate Only(w: World, m: Message) {
    && (forall pk | pk in w.flight && Deliverable(w, pk) :: pk.msg == m)
    && (forall h | h in w.pending :: h.msg == m)
  }

  /** Whoever holds a clip that `m` does not beat keeps it. */
  ghost predicate Unmoved(w: World, w': World, m: Message) {
    && w'.parties.Keys == w.parties.Keys
    && forall p | p in w.parties && CurAt(w, p).Some? && !Beats(m, CurAt(w, p).value) :: CurAt(w', p) == CurAt(w, p)
  }

  lemma AdoptOnly(w: World, p: PartyId, party: Party, m: Message, ls: set<LinkId>)
    requires Only(w, m) && p in w.parties && Ends(party) == Ends(w.parties[p])
    ensures Only(Adopt(w, p, party, m, ls), m)
    ensures Newer(m, CurAt(w, p)) ==> Unmoved(w, Adopt(w, p, party, m, ls), m)
  {
    var w' := Adopt(w, p, party, m, ls);
    forall pk | pk in w'.flight && Deliverable(w', pk) ensures pk.msg == m {
      assert pk in w.flight || pk in Sends(w, p, ls, m);
      assert Deliverable(w, pk);
    }
    hide Sends, Beats;
  }

  lemma NodeDeliverOnly(w: World, pk: Packet, m: Message)
    requires Only(w, m) && Enabled(w, Deliver(pk)) && w.parties[pk.to].Node?
    ensures var w' := Next(w, Deliver(pk)); Only(w', m) && Unmoved(w, w', m)
  {
    NodeDeliverShape(w, pk);
    hide Next, Paused, Beats;
    assert Deliverable(w, pk);
    assert forall x :: Deliverable(Next(w, Deliver(pk)), x) == Deliverable(w, x);
  }

  lemma HubDeliverOnly(w: World, pk: Packet, m: Message)
    requires Only(w, m) && Enabled(w, Deliver(pk)) && w.parties[pk.to].Hub?
    ensures var w' := Next(w, Deliver(pk)); Only(w', m) && Unmoved(w, w', m)
  {
    hide Adopt, Beats;
    assert Deliverable(w, pk);
    var w0 := w.(flight := w.flight - multiset{pk});
    assert forall x :: Deliverable(w0, x) == Deliverable(w, x);
    var (a', out) := Relay.Accept(w.parties[pk.to].acct, pk.link, pk.msg);
    if out.Some? { AdoptOnly(w0, pk.to, Hub(a'), pk.msg, out.value); }
  }

  lemma FinishOnly(w: World, h: Handling, m: Message)
    requires Only(w, m) && Enabled(w, Finish(h))
    ensures var w' := Next(w, Finish(h)); Only(w', m) && Unmoved(w, w', m)
  {
    hide Adopt, Beats, OpenClip, ContentFrom;
    var w0 := w.(pending := w.pending - multiset{h});
    assert forall x :: Deliverable(w0, x) == Deliverable(w, x);
    if OpenClip(w.key, h.msg).Some? && ContentFrom(h.msg, OpenClip(w.key, h.msg).value).Some? {
      var c := ContentFrom(h.msg, OpenClip(w.key, h.msg).value).value;
      var (d', outcome) := Commit(w.parties[h.at].device, h.link, h.msg, c.Digest());
      if outcome.Adopted? { AdoptOnly(w0, h.at, Node(d'), h.msg, outcome.forward); }
    }
  }

  lemma {:induction false} OnlyStaleArrives(w: World, ds: seq<Event>, m: Message)
    requires Only(w, m) && Runs(w, ds) && Deliveries(ds)
    ensures Unmoved(w, After(w, ds), m)
    decreases |ds|
  {
    if ds != [] {
      var e := ds[0];
      assert Delivery(e);
      hide Next, Only, Beats;
      if e.Finish? {
        FinishOnly(w, e.h, m);
      } else if w.parties[e.pk.to].Node? {
        NodeDeliverOnly(w, e.pk, m);
      } else {
        HubDeliverOnly(w, e.pk, m);
      }
      OnlyStaleArrives(Next(w, e), ds[1..], m);
    }
  }

  lemma NothingDeliverable(w: World)
    requires Behind(w) && Settled(w)
    ensures w.pending == multiset{} && forall pk | pk in w.flight :: !Deliverable(w, pk)
  {
    forall h ensures h !in w.pending { assert Delivery(Finish(h)) && !Enabled(w, Finish(h)); }
    forall pk ensures pk in w.flight ==> !Deliverable(w, pk) { assert Delivery(Deliver(pk)) && !Enabled(w, Deliver(pk)); }
  }

  lemma AdoptPlaces(w: World, p: PartyId, party: Party, m: Message, ls: set<LinkId>)
    requires p in w.parties
    ensures var w' := Adopt(w, p, party, m, ls);
            && w'.parties.Keys == w.parties.Keys && CurAt(w', p) == Cur(party)
            && forall q | q in w.parties && q != p :: CurAt(w', q) == CurAt(w, q)
  {
    hide Sends;
  }

  lemma PublishOnly(w: World, s: Staged)
    requires Behind(w) && Settled(w) && Enabled(w, Publishing(s))
    ensures var w' := Next(w, Publishing(s));
            && Only(w', s.msg) && w'.parties.Keys == w.parties.Keys && CurAt(w', s.at) == Some(s.msg)
            && forall p | p in w.parties && p != s.at :: CurAt(w', p) == CurAt(w, p)
  {
    NothingDeliverable(w);
    hide Remember, Behind, Settled;
    var (d, ls) := Publish(w.parties[s.at].device, s.msg);
    var w0 := w.(staged := w.staged - multiset{s});
    assert forall pk :: Deliverable(w0, pk) == Deliverable(w, pk);
    AdoptOnly(w0, s.at, Node(d), s.msg, ls);
    AdoptPlaces(w0, s.at, Node(d), s.msg, ls);
    hide Adopt, Only, Deliverable;
  }

  lemma CalmStoreAgrees(w: World, s: Staged, q: PartyId, l: LinkId, ds: seq<Event>)
    requires Inv(w) && Enabled(w, Publishing(s)) && Joined(w, s.at, q, l) && Awake(w, s.at) && Awake(w, q)
    requires Calm(w, Publishing(s))
    requires var w1 := Next(w, Publishing(s)); Runs(w1, ds) && Deliveries(ds) && Settled(After(w1, ds))
    ensures var w2 := After(Next(w, Publishing(s)), ds);
            s.at in w2.parties && q in w2.parties && CurAt(w2, s.at) == CurAt(w2, q)
  {
    hide Inv, Next, Joined, Framed, Settled, Enabled, Calm;
    var w1 := Next(w, Publishing(s));
    PublishKeeps(w, s);
    FloodingStops(w1, ds);
    RunKeeps(w1, ds);
    var w2 := After(w1, ds);
    PublishFrames(w, s);
    DeliveriesFrame(w1, ds);
    FramedOn(w, w1, w2);
    StaysJoined(w, w2, s.at, q, l);
    SettledIsQuiet(w2);
    NeighboursAgree(w2, s.at, q, l);
    JoinedExist(w2, s.at, q, l);
  }

  lemma JoinedExist(w: World, p: PartyId, q: PartyId, l: LinkId)
    requires Joined(w, p, q, l)
    ensures p in w.parties && q in w.parties && p != q
  {}

  /** A clip that does not replace another is beaten by it, or is it. */
  lemma NotNewer(w: World, p: PartyId, m: Message)
    requires Sane(w) && p in w.parties && m in w.issued && !Around(w, m) && !Newer(m, CurAt(w, p))
    ensures CurAt(w, p).Some? && CurAt(w, p).value != m && !Beats(m, CurAt(w, p).value) && !Beats(m, m)
  {
    assert CurAt(w, p).Some? ==> Around(w, CurAt(w, p).value);
    BeatsIrreflexive(m);
  }

  lemma StaleStoreSplits(w: World, s: Staged, q: PartyId, l: LinkId, ds: seq<Event>)
    requires Inv(w) && Sane(w) && Settled(w) && Enabled(w, Publishing(s)) && Joined(w, s.at, q, l)
    requires !Calm(w, Publishing(s))
    requires var w1 := Next(w, Publishing(s)); Runs(w1, ds) && Deliveries(ds)
    ensures var w2 := After(Next(w, Publishing(s)), ds);
            s.at in w2.parties && q in w2.parties && CurAt(w2, s.at) != CurAt(w2, q)
  {
    StaleIsBeaten(w, s);
    hide Sane, Settled, Joined, Next, Only, Beats, Enabled, Newer;
    hide Shape, Clips, Behind, Remembered, Reached, Sourced, Forward;
    var w1 := Next(w, Publishing(s));
    SettledIsQuiet(w);
    NeighboursAgree(w, s.at, q, l);
    JoinedExist(w, s.at, q, l);
    PublishOnly(w, s);
    OnlyStaleArrives(w1, ds, s.msg);
  }

  lemma StaleIsBeaten(w: World, s: Staged)
    requires Sane(w) && Enabled(w, Publishing(s)) && !Calm(w, Publishing(s))
    ensures CurAt(w, s.at).Some? && CurAt(w, s.at).value != s.msg
    ensures !Beats(s.msg, CurAt(w, s.at).value) && !Beats(s.msg, s.msg)
  {
    hide Around, Beats;
    NotNewer(w, s.at, s.msg);
  }

  /** Take any network after a calm run, with nothing left to deliver, and two awake
      parties joined by a link, so that they agree. If one of them now stores a clip it
      had stamped, and everything that follows from it has been delivered, in any order,
      they agree again if and only if the store was calm. */
  lemma AgreesAgainExactlyIfCalm(w0: World, es: seq<Event>, s: Staged, q: PartyId, l: LinkId, ds: seq<Event>)
    requires Fresh(w0) && Runs(w0, es) && CalmRun(w0, es) && Settled(After(w0, es))
    requires var w := After(w0, es); Enabled(w, Publishing(s)) && Joined(w, s.at, q, l) && Awake(w, s.at) && Awake(w, q)
    requires var w1 := Next(After(w0, es), Publishing(s)); Runs(w1, ds) && Deliveries(ds) && Settled(After(w1, ds))
    ensures var w2 := After(Next(After(w0, es), Publishing(s)), ds);
            s.at in w2.parties && q in w2.parties
            && (CurAt(w2, s.at) == CurAt(w2, q) <==> Calm(After(w0, es), Publishing(s)))
  {
    hide Fresh, Inv, Sane, Next, Enabled, Settled, Joined, Awake, Calm;
    FreshInv(w0);
    RunKeeps(w0, es);
    FreshSane(w0);
    RunSane(w0, es);
    var w := After(w0, es);
    if Calm(w, Publishing(s)) {
      CalmStoreAgrees(w, s, q, l, ds);
    } else {
      StaleStoreSplits(w, s, q, l, ds);
    }
  }
}
