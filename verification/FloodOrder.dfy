/** What holds in every run of the flood, calm or not: each party's own order, and what
    exactly a clip stored out of order does. */
module FloodOrder {
  import opened Basics
  import opened Wire
  import opened Sync
  import opened Flood
  import opened Convergence
  import opened FloodTheorems
  import Relay

  // ---- Where clips come from ----

  /** Someone holds `m`, or a copy of it is under way. */
  ghost predicate Around(w: World, m: Message) {
    || (exists p :: p in w.parties && CurAt(w, p) == Some(m))
    || (exists pk :: pk in w.flight && pk.msg == m)
    || (exists h :: h in w.pending && h.msg == m)
  }

  /** Ids are distinct, every clip around was stamped by LocalCopy, and a stamped clip
      that has not been stored waits once and is around nowhere. */
  ghost predicate Sane(w: World) {
    && (forall m, n | m in w.issued && n in w.issued && m.id == n.id :: m == n)
    && (forall m | Around(w, m) :: m in w.issued)
    && (forall s | s in w.staged :: s.msg in w.issued && w.staged[s] == 1 && !Around(w, s.msg))
    && (forall s, t | s in w.staged && t in w.staged && s.msg == t.msg :: s == t)
  }

  lemma AdoptAround(w: World, p: PartyId, party: Party, m: Message, ls: set<LinkId>)
    requires p in w.parties && Cur(party) == Some(m)
    ensures forall x | Around(Adopt(w, p, party, m, ls), x) :: Around(w, x) || x == m
  {
    var w' := Adopt(w, p, party, m, ls);
    forall pk | pk in w'.flight ensures pk in w.flight || pk.msg == m {
      assert pk in w.flight || pk in Sends(w, p, ls, m);
    }
    hide Sends, Adopt;
  }

  lemma FewerAround(w: World, w': World)
    requires w'.parties.Keys == w.parties.Keys && forall p | p in w.parties :: CurAt(w', p) == CurAt(w, p)
    requires forall pk | pk in w'.flight :: pk in w.flight || Around(w, pk.msg)
    requires forall h | h in w'.pending :: h in w.pending || Around(w, h.msg)
    ensures forall x | Around(w', x) :: Around(w, x)
  {}

  lemma NodeDeliverAround(w: World, pk: Packet)
    requires Enabled(w, Deliver(pk)) && w.parties[pk.to].Node?
    ensures forall x | Around(Next(w, Deliver(pk)), x) :: Around(w, x)
  {
    NodeDeliverShape(w, pk);
    hide Next;
    assert Around(w, pk.msg);
    hide Around;
    FewerAround(w, Next(w, Deliver(pk)));
  }

  lemma HubDeliverAround(w: World, pk: Packet)
    requires Enabled(w, Deliver(pk)) && w.parties[pk.to].Hub?
    ensures forall x | Around(Next(w, Deliver(pk)), x) :: Around(w, x)
  {
    hide Newer, Adopt;
    assert Around(w, pk.msg);
    hide Around;
    var w0 := w.(flight := w.flight - multiset{pk});
    FewerAround(w, w0);
    var (a', out) := Relay.Accept(w.parties[pk.to].acct, pk.link, pk.msg);
    if out.Some? { AdoptAround(w0, pk.to, Hub(a'), pk.msg, out.value); }
  }

  lemma FinishAround(w: World, h: Handling)
    requires Enabled(w, Finish(h))
    ensures forall x | Around(Next(w, Finish(h)), x) :: Around(w, x)
  {
    hide Adopt, OpenClip, ContentFrom, Newer;
    var w0 := w.(pending := w.pending - multiset{h});
    FewerAround(w, w0);
    assert Around(w, h.msg);
    hide Around;
    if OpenClip(w.key, h.msg).Some? && ContentFrom(h.msg, OpenClip(w.key, h.msg).value).Some? {
      var c := ContentFrom(h.msg, OpenClip(w.key, h.msg).value).value;
      var (d', outcome) := Commit(w.parties[h.at].device, h.link, h.msg, c.Digest());
      if outcome.Adopted? { AdoptAround(w0, h.at, Node(d'), h.msg, outcome.forward); }
    }
  }

  lemma RegisterAround(w: World, p: PartyId, l: LinkId)
    requires Enabled(w, Register(p, l))
    ensures forall x | Around(Next(w, Register(p, l)), x) :: Around(w, x)
  {
    RegisterSame(w, p, l);
    var w' := Next(w, Register(p, l));
    hide Next;
    assert CurAt(w, p).Some? ==> Around(w, CurAt(w, p).value);
    hide Around;
    FewerAround(w, w');
  }

  /** Connections, links and pauses. */
  predicate Wiring(e: Event) {
    e.Connect? || e.Break? || e.Unregister? || e.SetPaused?
  }

  lemma WiringSame(w: World, e: Event)
    requires Enabled(w, e) && Wiring(e)
    ensures var w' := Next(w, e);
            && w' == w.(parties := w'.parties, wires := w'.wires) && w'.parties.Keys == w.parties.Keys
            && forall p | p in w.parties :: CurAt(w', p) == CurAt(w, p) && w'.parties[p].Hub? == w.parties[p].Hub?
  {}

  /** Only LocalCopy brings a clip into the world. */
  lemma NothingNewAround(w: World, e: Event)
    requires Enabled(w, e) && !e.Copy? && !e.Publishing?
    ensures var w' := Next(w, e);
            w'.staged == w.staged && w'.issued == w.issued && forall x | Around(w', x) :: Around(w, x)
  {
    hide Around;
    if e.Register? {
      hide Next;
      RegisterSame(w, e.p, e.l);
      RegisterAround(w, e.p, e.l);
    } else if e.Deliver? {
      DeliverLists(w, e.pk);
      hide Next;
      if w.parties[e.pk.to].Node? { NodeDeliverAround(w, e.pk); } else { HubDeliverAround(w, e.pk); }
    } else if e.Finish? {
      FinishLists(w, e.h);
      hide Next;
      FinishAround(w, e.h);
    } else {
      hide Next, Enabled;
      WiringSame(w, e);
      FewerAround(w, Next(w, e));
    }
  }

  lemma DeliverLists(w: World, pk: Packet)
    requires Enabled(w, Deliver(pk))
    ensures var w' := Next(w, Deliver(pk));
            w'.staged == w.staged && w'.issued == w.issued && w'.parties.Keys == w.parties.Keys
            && forall p | p in w.parties :: w'.parties[p].Hub? == w.parties[p].Hub?
  {
    if w.parties[pk.to].Node? {
      NodeDeliverShape(w, pk);
      hide *;
    } else {
      hide Newer, Sends;
    }
  }

  lemma FinishLists(w: World, h: Handling)
    requires Enabled(w, Finish(h))
    ensures var w' := Next(w, Finish(h));
            w'.staged == w.staged && w'.issued == w.issued && w'.parties.Keys == w.parties.Keys
            && forall p | p in w.parties :: w'.parties[p].Hub? == w.parties[p].Hub?
  {
    hide Commit, Sends, OpenClip, ContentFrom;
  }

  /** A new clip may be stamped. */
  lemma StagedSane(w: World, w': World, s: Staged)
    requires Sane(w) && w'.staged == w.staged + multiset{s} && w'.issued == w.issued + {s.msg}
    requires (forall n | n in w.issued :: n.id != s.msg.id) && forall x | Around(w', x) :: Around(w, x)
    ensures Sane(w')
  {
    hide Around;
    assert s.msg !in w.issued && s !in w.staged;
    assert forall t | t in w'.staged :: t == s || t in w.staged;
  }

  /** A stamped clip may stop waiting. */
  lemma UnstagedSane(w: World, w': World, s: Staged)
    requires Sane(w) && s in w.staged && w'.staged == w.staged - multiset{s} && w'.issued == w.issued
    requires forall x | Around(w', x) :: Around(w, x) || x == s.msg
    ensures Sane(w')
  {
    hide Around;
    assert w.staged[s] == 1;
    assert forall t | t in w'.staged :: t in w.staged && t != s;
  }

  lemma CopyAround(w: World, e: Event)
    requires Enabled(w, e) && e.Copy?
    ensures forall x | Around(Next(w, e), x) :: Around(w, x)
  {
    CopySame(w, e);
    hide Next, Around, Genuine;
    FewerAround(w, Next(w, e));
  }

  /** Nothing is stamped or stored. */
  lemma SameSane(w: World, w': World)
    requires Sane(w) && w'.staged == w.staged && w'.issued == w.issued && forall x | Around(w', x) :: Around(w, x)
    ensures Sane(w')
  {
    hide Around;
  }

  lemma CopySane(w: World, e: Event)
    requires Sane(w) && Enabled(w, e) && e.Copy?
    ensures Sane(Next(w, e))
  {
    assert forall n | n in w.issued :: n.id != e.id;
    hide *;
    var w' := Next(w, e);
    CopyAround(w, e);
    CopyStages(w, e);
    if w'.staged == w.staged && w'.issued == w.issued {
      SameSane(w, w');
    } else {
      var m :| w'.staged == w.staged + multiset{Staged(e.p, m)} && w'.issued == w.issued + {m} && m.id == e.id;
      StagedSane(w, w', Staged(e.p, m));
    }
  }

  lemma CopyStages(w: World, e: Event)
    requires Enabled(w, e) && e.Copy?
    ensures var w' := Next(w, e);
            (w'.staged == w.staged && w'.issued == w.issued)
            || exists m :: w'.staged == w.staged + multiset{Staged(e.p, m)} && w'.issued == w.issued + {m} && m.id == e.id
  {
    hide Stamp, ClipAad;
  }

  lemma PublishSane(w: World, s: Staged)
    requires Sane(w) && Enabled(w, Publishing(s))
    ensures Sane(Next(w, Publishing(s)))
  {
    hide Adopt, Remember, Around, Sane;
    var w0 := w.(staged := w.staged - multiset{s});
    FewerAround(w, w0);
    var (d, ls) := Publish(w.parties[s.at].device, s.msg);
    AdoptAround(w0, s.at, Node(d), s.msg, ls);
    AdoptKeepsLists(w0, s.at, Node(d), s.msg, ls);
    UnstagedSane(w, Next(w, Publishing(s)), s);
  }

  lemma AdoptKeepsLists(w: World, p: PartyId, party: Party, m: Message, ls: set<LinkId>)
    ensures var w' := Adopt(w, p, party, m, ls); w'.staged == w.staged && w'.issued == w.issued
  {}

  lemma StepSane(w: World, e: Event)
    requires Sane(w) && Enabled(w, e)
    ensures Sane(Next(w, e))
  {
    hide Next, Around, Enabled;
    if e.Copy? {
      CopySane(w, e);
    } else if e.Publishing? {
      PublishSane(w, e.s);
    } else {
      NothingNewAround(w, e);
    }
  }

  // ---- Every party's own order ----

  /** If the step stores a stamped clip at `p`, it does so calmly. */
  predicate CalmAt(w: World, e: Event, p: PartyId) {
    e.Publishing? && e.s.at == p ==> Calm(w, e)
  }

  predicate CalmRunAt(w: World, es: seq<Event>, p: PartyId)
    requires Runs(w, es)
    decreases |es|
  {
    es == [] || (CalmAt(w, es[0], p) && CalmRunAt(Next(w, es[0]), es[1..], p))
  }

  lemma AdoptMoves(w: World, p: PartyId, party: Party, m: Message, ls: set<LinkId>, q: PartyId)
    requires q in w.parties && Moves(w, q) && p in w.parties && m in w.issued && Cur(party) == Some(m)
    requires q == p ==> Newer(m, CurAt(w, p))
    ensures Moves(Adopt(w, p, party, m, ls), q)
  {
    if q == p {
      var past := if p in w.log then w.log[p] else [];
      if p in w.log && CurAt(w, p).Some? {
        forall i | 0 <= i < |past| ensures Beats(m, past[i]) {
          if i < |past| - 1 { BeatsTransitive(m, past[|past| - 1], past[i]); }
        }
      }
      assert Ascending(past + [m]);
    }
    hide Ascending, Beats, Sends;
  }

  /** The same clip and history at `q`. */
  lemma SameMoves(w: World, w': World, q: PartyId)
    requires q in w.parties && Moves(w, q) && q in w'.parties && CurAt(w', q) == CurAt(w, q)
    requires w'.log == w.log && w.issued <= w'.issued
    ensures Moves(w', q)
  {
    hide Ascending;
  }

  lemma HubDeliverMoves(w: World, pk: Packet, q: PartyId)
    requires pk.msg in w.issued && Enabled(w, Deliver(pk)) && w.parties[pk.to].Hub? && q in w.parties && Moves(w, q)
    ensures q in Next(w, Deliver(pk)).parties && Moves(Next(w, Deliver(pk)), q)
  {
    hide Adopt, Moves;
    var w0 := w.(flight := w.flight - multiset{pk});
    SameMoves(w, w0, q);
    var (a', out) := Relay.Accept(w.parties[pk.to].acct, pk.link, pk.msg);
    if out.Some? {
      AdoptMoves(w0, pk.to, Hub(a'), pk.msg, out.value, q);
      AdoptLogs(w0, pk.to, Hub(a'), pk.msg, out.value);
    }
  }

  lemma NodeDeliverMoves(w: World, pk: Packet, q: PartyId)
    requires Enabled(w, Deliver(pk)) && w.parties[pk.to].Node? && q in w.parties && Moves(w, q)
    ensures q in Next(w, Deliver(pk)).parties && Moves(Next(w, Deliver(pk)), q)
  {
    NodeDeliverShape(w, pk);
    hide Moves, Next;
    SameMoves(w, Next(w, Deliver(pk)), q);
  }

  lemma DeliverMoves(w: World, pk: Packet, q: PartyId)
    requires Sane(w) && Enabled(w, Deliver(pk)) && q in w.parties && Moves(w, q)
    ensures q in Next(w, Deliver(pk)).parties && Moves(Next(w, Deliver(pk)), q)
  {
    assert Around(w, pk.msg);
    hide Moves, Next;
    if w.parties[pk.to].Node? { NodeDeliverMoves(w, pk, q); } else { HubDeliverMoves(w, pk, q); }
  }

  lemma CommitAdopts(d: Device, l: LinkId, m: Message, h: Hash)
    ensures var (d', outcome) := Commit(d, l, m, h); outcome.Adopted? ==> Newer(m, d.current) && d'.current == Some(m)
  {}

  /** Finishing a Handle call adopts its clip or changes no clip. */
  lemma FinishShape(w: World, h: Handling)
    requires Enabled(w, Finish(h))
    ensures h.at in w.parties
    ensures var w0, w' := w.(pending := w.pending - multiset{h}), Next(w, Finish(h));
            || w' == w0
            || exists d': Device, ls :: d'.current == Some(h.msg) && Newer(h.msg, CurAt(w, h.at)) && w' == Adopt(w0, h.at, Node(d'), h.msg, ls)
  {
    hide Adopt, OpenClip, ContentFrom, Commit, Newer;
    var w0 := w.(pending := w.pending - multiset{h});
    if OpenClip(w.key, h.msg).Some? && ContentFrom(h.msg, OpenClip(w.key, h.msg).value).Some? {
      var c := ContentFrom(h.msg, OpenClip(w.key, h.msg).value).value;
      var (d', outcome) := Commit(w.parties[h.at].device, h.link, h.msg, c.Digest());
      CommitAdopts(w.parties[h.at].device, h.link, h.msg, c.Digest());
      if outcome.Adopted? {
        assert Next(w, Finish(h)) == Adopt(w0, h.at, Node(d'), h.msg, outcome.forward);
      }
    }
  }

  lemma AdoptedMoves(w: World, v: World, w': World, p: PartyId, d: Device, m: Message, ls: set<LinkId>, q: PartyId)
    requires v == w.(pending := v.pending) && q in w.parties && Moves(w, q) && p in w.parties && m in w.issued
    requires d.current == Some(m) && Newer(m, CurAt(w, p)) && w' == Adopt(v, p, Node(d), m, ls)
    ensures q in w'.parties && Moves(w', q)
  {
    hide Adopt, Moves, Newer;
    SameMoves(w, v, q);
    AdoptMoves(v, p, Node(d), m, ls, q);
    AdoptLogs(v, p, Node(d), m, ls);
  }

  lemma PendingIssued(w: World, h: Handling)
    requires Sane(w) && h in w.pending
    ensures h.msg in w.issued
  {
    assert Around(w, h.msg);
    hide Around;
  }

  lemma FinishMoves(w: World, h: Handling, q: PartyId)
    requires Sane(w) && Enabled(w, Finish(h)) && q in w.parties && Moves(w, q)
    ensures q in Next(w, Finish(h)).parties && Moves(Next(w, Finish(h)), q)
  {
    PendingIssued(w, h);
    FinishShape(w, h);
    hide *;
    var w0, w' := w.(pending := w.pending - multiset{h}), Next(w, Finish(h));
    if w' == w0 {
      SameCurs(w, w0, q);
      SameMoves(w, w0, q);
    } else {
      var d': Device, ls :| d'.current == Some(h.msg) && Newer(h.msg, CurAt(w, h.at)) && w' == Adopt(w0, h.at, Node(d'), h.msg, ls);
      AdoptedMoves(w, w0, w', h.at, d', h.msg, ls, q);
    }
  }

  lemma SameCurs(w: World, w': World, q: PartyId)
    requires w'.parties == w.parties && q in w.parties
    ensures CurAt(w', q) == CurAt(w, q)
  {}

  lemma PublishMoves(w: World, s: Staged, q: PartyId)
    requires Sane(w) && Enabled(w, Publishing(s)) && q in w.parties && Moves(w, q) && CalmAt(w, Publishing(s), q)
    ensures q in Next(w, Publishing(s)).parties && Moves(Next(w, Publishing(s)), q)
  {
    hide Adopt, Moves, Around, Remember;
    var w0 := w.(staged := w.staged - multiset{s});
    SameMoves(w, w0, q);
    var (d, ls) := Publish(w.parties[s.at].device, s.msg);
    AdoptMoves(w0, s.at, Node(d), s.msg, ls, q);
    AdoptLogs(w0, s.at, Node(d), s.msg, ls);
  }

  lemma StepMoves(w: World, e: Event, q: PartyId)
    requires Sane(w) && Enabled(w, e) && q in w.parties && Moves(w, q) && CalmAt(w, e, q)
    ensures q in Next(w, e).parties && Moves(Next(w, e), q)
  {
    hide Sane, Moves, CalmAt;
    if e.Deliver? {
      DeliverMoves(w, e.pk, q);
      hide *;
    } else if e.Finish? {
      FinishMoves(w, e.h, q);
      hide *;
    } else if e.Publishing? {
      PublishMoves(w, e.s, q);
      hide *;
    } else if e.Copy? {
      CopySame(w, e);
      hide Next, Genuine;
      SameMoves(w, Next(w, e), q);
    } else {
      SameMoves(w, Next(w, e), q);
    }
  }

  lemma FreshSane(w: World)
    requires Fresh(w)
    ensures Sane(w) && forall p | p in w.parties :: Moves(w, p)
  {}

  lemma {:induction false} RunMoves(w: World, es: seq<Event>, q: PartyId)
    requires Sane(w) && Runs(w, es) && q in w.parties && Moves(w, q) && CalmRunAt(w, es, q)
    ensures Sane(After(w, es)) && q in After(w, es).parties && Moves(After(w, es), q)
    decreases |es|
  {
    hide Sane, Moves, Next, Enabled, CalmAt;
    if es != [] {
      StepSane(w, es[0]);
      StepMoves(w, es[0], q);
      RunMoves(Next(w, es[0]), es[1..], q);
    }
  }

  lemma {:induction false} RunSane(w: World, es: seq<Event>)
    requires Sane(w) && Runs(w, es)
    ensures Sane(After(w, es))
    decreases |es|
  {
    hide Sane, Next, Enabled;
    if es != [] {
      StepSane(w, es[0]);
      RunSane(Next(w, es[0]), es[1..]);
    }
  }

  lemma KindsStay(w: World, e: Event, p: PartyId)
    requires Enabled(w, e) && p in w.parties
    ensures p in Next(w, e).parties && Next(w, e).parties[p].Hub? == w.parties[p].Hub?
  {
    if e.Deliver? {
      DeliverLists(w, e.pk);
      hide *;
    } else if e.Finish? {
      FinishLists(w, e.h);
      hide *;
    } else if Wiring(e) {
      WiringSame(w, e);
      hide *;
    } else if e.Register? {
      RegisterSame(w, e.p, e.l);
      hide *;
    } else {
      hide Originate, Sends, Remember;
    }
  }

  /** A hub stores nothing it has stamped, so to it every run is calm. */
  lemma {:induction false} HubsAreCalm(w: World, es: seq<Event>, p: PartyId)
    requires Runs(w, es) && p in w.parties && w.parties[p].Hub?
    ensures CalmRunAt(w, es, p)
    decreases |es|
  {
    hide Next, Calm;
    if es != [] {
      KindsStay(w, es[0], p);
      HubsAreCalm(Next(w, es[0]), es[1..], p);
    }
  }

  /** In every run, calm or not, a hub takes each clip at most once and each one newer
      than the last; and so does a device that stores its own stamped clips calmly,
      whatever happens elsewhere and whatever its window of seen ids has forgotten. */
  lemma TakenAtMostOnce(w0: World, es: seq<Event>, p: PartyId, i: nat, j: nat)
    requires Fresh(w0) && Runs(w0, es) && p in w0.parties && (w0.parties[p].Hub? || CalmRunAt(w0, es, p))
    requires p in After(w0, es).log && i < |After(w0, es).log[p]| && j < |After(w0, es).log[p]|
    ensures After(w0, es).log[p][i].id == After(w0, es).log[p][j].id <==> i == j
    ensures i < j <==> Beats(After(w0, es).log[p][j], After(w0, es).log[p][i])
  {
    hide Fresh;
    FreshSane(w0);
    if w0.parties[p].Hub? { HubsAreCalm(w0, es, p); }
    RunMoves(w0, es, p);
    hide Runs, After, CalmRunAt, Around;
    LogIdsDiffer(After(w0, es), p, i, j);
  }

  lemma LogIdsDiffer(w: World, p: PartyId, i: nat, j: nat)
    requires Sane(w) && p in w.parties && Moves(w, p) && p in w.log && i < |w.log[p]| && j < |w.log[p]|
    ensures w.log[p][i].id == w.log[p][j].id <==> i == j
    ensures i < j <==> Beats(w.log[p][j], w.log[p][i])
  {
    hide Beats, Around;
    assert w.log[p][i] in w.log[p] && w.log[p][j] in w.log[p];
    BeatsIrreflexive(w.log[p][i]);
    if j < i && Beats(w.log[p][j], w.log[p][i]) { BeatsTransitive(w.log[p][j], w.log[p][i], w.log[p][j]); BeatsIrreflexive(w.log[p][j]); }
  }

  // ---- Storing out of order ----

  lemma PublishLogs(w: World, s: Staged)
    requires Enabled(w, Publishing(s)) && Moves(w, s.at)
    ensures var w' := Next(w, Publishing(s));
            && s.at in w'.parties && s.at in w'.log && CurAt(w', s.at) == Some(s.msg)
            && (CurAt(w, s.at).Some? ==>
              |w'.log[s.at]| >= 2 && w'.log[s.at][|w'.log[s.at]| - 2] == CurAt(w, s.at).value
              && w'.log[s.at][|w'.log[s.at]| - 1] == s.msg)
  {
    hide Ascending, Remember, Sends;
  }

  lemma NotAscending(s: seq<Message>, i: nat)
    requires i + 1 < |s| && !Beats(s[i + 1], s[i])
    ensures !Ascending(s)
  {}

  /** Storing a stamped clip keeps the order of the device's clips exactly when the step
      is calm. */
  lemma CalmIsExact(w: World, s: Staged)
    requires Sane(w) && Enabled(w, Publishing(s)) && Moves(w, s.at)
    ensures s.at in Next(w, Publishing(s)).log
    ensures Calm(w, Publishing(s)) <==> Ascending(Next(w, Publishing(s)).log[s.at])
  {
    hide Ascending, Next, Sane;
    PublishLogs(w, s);
    if Calm(w, Publishing(s)) {
      PublishMoves(w, s, s.at);
    } else {
      var log := Next(w, Publishing(s)).log[s.at];
      NotAscending(log, |log| - 2);
    }
  }
}
