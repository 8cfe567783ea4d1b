/** What every step of the flood keeps, and why it converges. */
module Convergence {
  import opened Basics
  import opened Wire
  import opened Sync
  import opened Flood
  import Relay

  // ---- The invariant ----

  /** Party `p` holds a clip at least as new as `m`. */
  predicate Holds(w: World, p: PartyId, m: Message) {
    p in w.parties && Covers(CurAt(w, p), m)
  }

  /** A Handle call for `m` is under way at `p`. */
  ghost predicate Awaits(w: World, p: PartyId, m: Message) {
    exists l :: Handling(p, l, m) in w.pending
  }

  /** Something at least as new as `m` is on connection `l` towards `q`. */
  ghost predicate Approaches(w: World, l: LinkId, q: PartyId, m: Message) {
    exists m' :: Packet(l, q, m') in w.flight && Covers(Some(m'), m)
  }

  ghost predicate AwaitsCover(w: World, q: PartyId, m: Message) {
    exists m' :: Awaits(w, q, m') && Covers(Some(m'), m)
  }

  /** `q` has, is handling, or is being sent over `l` something as new as `m`. */
  ghost predicate Reaches(w: World, l: LinkId, q: PartyId, m: Message) {
    Holds(w, q, m) || Approaches(w, l, q, m) || AwaitsCover(w, q, m)
  }

  ghost predicate Shape(w: World) {
    && (forall l | l in w.wires :: w.wires[l].a != w.wires[l].b && w.wires[l].a in w.parties && w.wires[l].b in w.parties)
    && (forall p, l | p in w.parties && l in Ends(w.parties[p]) :: l in w.wires && w.wires[l].HasEnd(p))
  }

  /** Clips are genuine, carry distinct ids, and every party's clip is one of them. */
  ghost predicate Clips(w: World) {
    && (forall m | m in w.issued :: Genuine(w.key, m))
    && (forall m, n | m in w.issued && n in w.issued && m.id == n.id :: m == n)
    && (forall p | p in w.parties && CurAt(w, p).Some? :: CurAt(w, p).value in w.issued)
    && (forall s | s in w.staged :: s.msg in w.issued)
  }

  /** Nothing overtakes its sender: what is on its way from a party, or being handled
      because of it, is no newer than what that party now holds. */
  ghost predicate Behind(w: World) {
    && (forall pk | pk in w.flight :: pk.msg in w.issued && pk.link in w.wires && w.wires[pk.link].HasEnd(pk.to)
                                      && Holds(w, w.wires[pk.link].Far(pk.to), pk.msg))
    && (forall h | h in w.pending :: h.msg in w.issued && h.link in w.wires && w.wires[h.link].HasEnd(h.at)
                                     && Holds(w, w.wires[h.link].Far(h.at), h.msg)
                                     && h.at in w.parties && w.parties[h.at].Node?)
  }

  ghost predicate Known(w: World, id: string) {
    exists m :: m in w.issued && m.id == id
  }

  /** A device drops a duplicate id only if it holds that clip or is handling it. */
  ghost predicate Remembered(w: World) {
    && (forall p, x | p in w.parties && w.parties[p].Node? && x in w.parties[p].device.seen :: Known(w, x))
    && forall p, m | p in w.parties && w.parties[p].Node? && m in w.issued && m.id in w.parties[p].device.seen ::
      Holds(w, p, m) || Awaits(w, p, m)
  }

  /** `q`, while paused, dropped from `l` something as new as `m`. */
  ghost predicate Missed(w: World, l: LinkId, q: PartyId, m: Message) {
    exists m' :: (l, q, m') in w.lost && Covers(Some(m'), m)
  }

  /** Along every working connection an end has registered, its clip has reached the
      far end, unless the far end dropped one as new while paused. */
  ghost predicate Reached(w: World) {
    forall p, l | p in w.parties && l in Ends(w.parties[p]) && l in w.wires && w.wires[l].up && CurAt(w, p).Some? ::
      Missed(w, l, w.wires[l].Far(p), CurAt(w, p).value) || Reaches(w, l, w.wires[l].Far(p), CurAt(w, p).value)
  }

  /** What a paused device dropped, the party it came from still covers. */
  ghost predicate Sourced(w: World) {
    forall l, q, m | (l, q, m) in w.lost :: l in w.wires && w.wires[l].HasEnd(q) && Holds(w, w.wires[l].Far(q), m)
  }

  predicate Ascending(s: seq<Message>) {
    forall i, j | 0 <= i < j < |s| :: Beats(s[j], s[i])
  }

  /** The clips of `p` have only ever moved forward, and its clip is the last of them. */
  ghost predicate Moves(w: World, p: PartyId)
    requires p in w.parties
  {
    if CurAt(w, p).None? then p !in w.log
    else p in w.log && w.log[p] != [] && w.log[p][|w.log[p]| - 1] == CurAt(w, p).value
         && Ascending(w.log[p]) && forall m | m in w.log[p] :: m in w.issued
  }

  ghost predicate Forward(w: World) {
    forall p | p in w.parties :: Moves(w, p)
  }

  ghost predicate Inv(w: World) {
    Shape(w) && Clips(w) && Behind(w) && Remembered(w) && Reached(w) && Sourced(w) && Forward(w)
  }

  // ---- Clips only move forward ----

  /** The same parties, none of whose clips has gone back. */
  ghost predicate Ascends(w: World, w': World) {
    && w'.parties.Keys == w.parties.Keys
    && forall p | p in w.parties && CurAt(w, p).Some? :: Covers(CurAt(w', p), CurAt(w, p).value)
  }

  lemma HoldsStays(w: World, w': World)
    requires Ascends(w, w')
    ensures forall p, m | Holds(w, p, m) :: Holds(w', p, m)
  {
    forall p, m | Holds(w, p, m) ensures Holds(w', p, m) {
      CoversTransitive(CurAt(w', p), CurAt(w, p).value, m);
    }
  }

  // ---- Adopting a clip ----

  /** `p` may adopt `m` as `party` and forward it over `ls`. */
  ghost predicate CanAdopt(w: World, p: PartyId, party: Party, m: Message, ls: set<LinkId>) {
    && p in w.parties && m in w.issued && Newer(m, CurAt(w, p))
    && Cur(party) == Some(m) && Ends(party) == Ends(w.parties[p]) && party.Node? == w.parties[p].Node?
    && (party.Node? ==> forall x | x in party.device.seen :: x == m.id || x in w.parties[p].device.seen)
    && ls <= Ends(party)
    && (forall l | l in Ends(party) && l in w.wires && l !in ls :: Holds(w, w.wires[l].Far(p), m))
  }

  lemma AdoptAscends(w: World, p: PartyId, party: Party, m: Message, ls: set<LinkId>)
    requires CanAdopt(w, p, party, m, ls)
    ensures Ascends(w, Adopt(w, p, party, m, ls))
    ensures Holds(Adopt(w, p, party, m, ls), p, m)
  {
    CoversSelf(m);
    forall q | q in w.parties && CurAt(w, q).Some?
      ensures Covers(CurAt(Adopt(w, p, party, m, ls), q), CurAt(w, q).value)
    {
      CoversSelf(CurAt(w, q).value);
      if q == p { NewerCovers(m, CurAt(w, p).value); }
    }
  }

  lemma AdoptBehind(w: World, p: PartyId, party: Party, m: Message, ls: set<LinkId>)
    requires Shape(w) && Behind(w) && CanAdopt(w, p, party, m, ls)
    ensures Behind(Adopt(w, p, party, m, ls))
  {
    var w' := Adopt(w, p, party, m, ls);
    AdoptAscends(w, p, party, m, ls);
    HoldsStays(w, w');
    forall pk | pk in w'.flight
      ensures pk.msg in w.issued && pk.link in w.wires && w.wires[pk.link].HasEnd(pk.to)
              && Holds(w', w.wires[pk.link].Far(pk.to), pk.msg)
    {
      assert pk in w.flight || pk in Sends(w, p, ls, m);
    }
  }

  lemma AdoptRemembered(w: World, p: PartyId, party: Party, m: Message, ls: set<LinkId>)
    requires Clips(w) && Remembered(w) && CanAdopt(w, p, party, m, ls)
    ensures Remembered(Adopt(w, p, party, m, ls))
  {
    var w' := Adopt(w, p, party, m, ls);
    AdoptAscends(w, p, party, m, ls);
    HoldsStays(w, w');
    forall q, x | q in w'.parties && w'.parties[q].Node? && x in w'.parties[q].device.seen
      ensures Known(w', x)
    {
      if x == m.id { assert m in w'.issued; }
      else { assert Known(w, x); }
    }
    forall q, n | q in w'.parties && w'.parties[q].Node? && n in w'.issued && n.id in w'.parties[q].device.seen
      ensures Holds(w', q, n) || Awaits(w', q, n)
    {
      if q == p && n.id == m.id { assert n == m; }
      else {
        assert n.id in w.parties[q].device.seen;
        if Awaits(w, q, n) {
          var l :| Handling(q, l, n) in w.pending;
          assert Handling(q, l, n) in w'.pending;
        }
      }
    }
  }

  lemma ReachesStays(w: World, w': World, l: LinkId, q: PartyId, m: Message)
    requires Ascends(w, w') && w.flight <= w'.flight && w.pending <= w'.pending
    requires Reaches(w, l, q, m)
    ensures Reaches(w', l, q, m)
  {
    HoldsStays(w, w');
    if Approaches(w, l, q, m) {
      var m' :| Packet(l, q, m') in w.flight && Covers(Some(m'), m);
      assert Packet(l, q, m') in w'.flight;
    } else if AwaitsCover(w, q, m) {
      var m' :| Awaits(w, q, m') && Covers(Some(m'), m);
      var l' :| Handling(q, l', m') in w.pending;
      assert Handling(q, l', m') in w'.pending;
      assert Awaits(w', q, m');
    }
  }

  lemma MissedStays(w: World, w': World, l: LinkId, q: PartyId, m: Message)
    requires w.lost <= w'.lost
    ensures Missed(w, l, q, m) ==> Missed(w', l, q, m)
  {
    if Missed(w, l, q, m) {
      var x :| (l, q, x) in w.lost && Covers(Some(x), m);
      assert (l, q, x) in w'.lost;
    }
  }

  /** Connections keep their ends, parties keep what they hold, nothing more is lost. */
  lemma SourcedStays(w: World, w': World)
    requires Sourced(w) && w'.lost <= w.lost
    requires forall l | l in w.wires :: l in w'.wires && w'.wires[l].a == w.wires[l].a && w'.wires[l].b == w.wires[l].b
    requires forall p, m | Holds(w, p, m) :: Holds(w', p, m)
    ensures Sourced(w')
  {
    hide Holds;
  }

  lemma AdoptReached(w: World, p: PartyId, party: Party, m: Message, ls: set<LinkId>)
    requires Shape(w) && Reached(w) && CanAdopt(w, p, party, m, ls)
    ensures Reached(Adopt(w, p, party, m, ls))
  {
    var w' := Adopt(w, p, party, m, ls);
    AdoptAscends(w, p, party, m, ls);
    HoldsStays(w, w');
    forall q, l | q in w'.parties && l in Ends(w'.parties[q]) && l in w'.wires && w'.wires[l].up && CurAt(w', q).Some?
      ensures Missed(w', l, w'.wires[l].Far(q), CurAt(w', q).value) || Reaches(w', l, w'.wires[l].Far(q), CurAt(w', q).value)
    {
      var far := w.wires[l].Far(q);
      if q == p {
        if l in ls {
          assert Packet(l, far, m) in Sends(w, p, ls, m);
          assert Packet(l, far, m) in w'.flight;
          CoversSelf(m);
          assert Approaches(w', l, far, m);
        }
      } else {
        MissedStays(w, w', l, far, CurAt(w, q).value);
        if !Missed(w, l, far, CurAt(w, q).value) { ReachesStays(w, w', l, far, CurAt(w, q).value); }
      }
    }
  }

  lemma AdoptSourced(w: World, p: PartyId, party: Party, m: Message, ls: set<LinkId>)
    requires Sourced(w) && CanAdopt(w, p, party, m, ls)
    ensures Sourced(Adopt(w, p, party, m, ls))
  {
    hide CanAdopt;
    AdoptAscends(w, p, party, m, ls);
    HoldsStays(w, Adopt(w, p, party, m, ls));
    SourcedStays(w, Adopt(w, p, party, m, ls));
  }

  lemma AdoptForward(w: World, p: PartyId, party: Party, m: Message, ls: set<LinkId>)
    requires Forward(w) && CanAdopt(w, p, party, m, ls)
    ensures Forward(Adopt(w, p, party, m, ls))
  {
    var w' := Adopt(w, p, party, m, ls);
    var past := if p in w.log then w.log[p] else [];
    if p in w.log && CurAt(w, p).Some? {
      forall i | 0 <= i < |past| ensures Beats(m, past[i]) {
        if i < |past| - 1 { BeatsTransitive(m, past[|past| - 1], past[i]); }
      }
    }
    assert w'.log[p] == past + [m];
    assert Ascending(past + [m]);
    forall q | q in w'.parties && q != p
      ensures CurAt(w', q) == CurAt(w, q)
    {}
  }

  lemma AdoptShape(w: World, p: PartyId, party: Party, m: Message, ls: set<LinkId>)
    requires Shape(w) && CanAdopt(w, p, party, m, ls)
    ensures Shape(Adopt(w, p, party, m, ls))
  {}

  lemma AdoptClips(w: World, p: PartyId, party: Party, m: Message, ls: set<LinkId>)
    requires Clips(w) && CanAdopt(w, p, party, m, ls)
    ensures Clips(Adopt(w, p, party, m, ls))
  {
    hide Genuine;
  }

  lemma AdoptKeeps(w: World, p: PartyId, party: Party, m: Message, ls: set<LinkId>)
    requires Inv(w) && CanAdopt(w, p, party, m, ls)
    ensures Inv(Adopt(w, p, party, m, ls)) && Holds(Adopt(w, p, party, m, ls), p, m)
  {
    hide Shape, Clips, Behind, Remembered, Reached, Sourced, Forward, CanAdopt, Adopt, Holds;
    AdoptAscends(w, p, party, m, ls);
    AdoptShape(w, p, party, m, ls);
    AdoptClips(w, p, party, m, ls);
    AdoptBehind(w, p, party, m, ls);
    AdoptRemembered(w, p, party, m, ls);
    AdoptReached(w, p, party, m, ls);
    AdoptSourced(w, p, party, m, ls);
    AdoptForward(w, p, party, m, ls);
  }

  // ---- Changes that touch no party's clip ----

  /** The same parties with the same clips and links, over the same connections. */
  ghost predicate Same(w: World, w': World) {
    && w'.parties.Keys == w.parties.Keys && w'.wires == w.wires && w'.log == w.log && w'.key == w.key
    && forall p | p in w.parties ::
      CurAt(w', p) == CurAt(w, p) && Ends(w'.parties[p]) == Ends(w.parties[p]) && w'.parties[p].Node? == w.parties[p].Node?
  }

  lemma SameShape(w: World, w': World)
    requires Shape(w) && Same(w, w')
    ensures Shape(w')
  {}

  lemma SameForward(w: World, w': World)
    requires Forward(w) && Same(w, w') && w.issued <= w'.issued
    ensures Forward(w')
  {
    hide Ascending;
  }

  lemma SameHolds(w: World, w': World)
    requires Same(w, w')
    ensures forall p, m :: Holds(w, p, m) == Holds(w', p, m)
  {}

  lemma SameClips(w: World, w': World)
    requires Clips(w) && Same(w, w') && w'.issued == w.issued
    requires forall s | s in w'.staged :: s in w.staged
    ensures Clips(w')
  {
    hide Genuine;
  }

  lemma SameBehind(w: World, w': World)
    requires Behind(w) && Same(w, w') && w.issued <= w'.issued
    requires forall pk | pk in w'.flight :: pk in w.flight
    requires forall h | h in w'.pending ::
               h in w.pending || (Packet(h.link, h.at, h.msg) in w.flight && h.at in w.parties && w.parties[h.at].Node?)
    ensures Behind(w')
  {
    SameHolds(w, w');
  }

  lemma AwaitsUnmoved(w: World, w': World)
    requires w.pending <= w'.pending
    ensures forall q, m | Awaits(w, q, m) :: Awaits(w', q, m)
  {
    forall q, m | Awaits(w, q, m) ensures Awaits(w', q, m) {
      var l :| Handling(q, l, m) in w.pending;
      assert Handling(q, l, m) in w'.pending;
    }
  }

  lemma SameRemembered(w: World, w': World)
    requires Remembered(w) && Same(w, w') && w'.parties == w.parties && w'.issued == w.issued
    requires forall q, m | Awaits(w, q, m) :: Awaits(w', q, m) || Holds(w, q, m)
    ensures Remembered(w')
  {
    SameHolds(w, w');
    forall p, x | p in w.parties && w.parties[p].Node? && x in w.parties[p].device.seen ensures Known(w', x) {
      assert Known(w, x);
      var m :| m in w.issued && m.id == x;
      assert m in w'.issued;
    }
  }

  lemma SameReached(w: World, w': World)
    requires Reached(w) && Same(w, w') && w.flight <= w'.flight && w.pending <= w'.pending && w.lost <= w'.lost
    ensures Reached(w')
  {
    assert Ascends(w, w') by {
      forall p | p in w.parties && CurAt(w, p).Some? ensures Covers(CurAt(w', p), CurAt(w, p).value) {
        CoversSelf(CurAt(w, p).value);
      }
    }
    forall p, l | p in w'.parties && l in Ends(w'.parties[p]) && l in w'.wires && w'.wires[l].up && CurAt(w', p).Some?
      ensures Missed(w', l, w'.wires[l].Far(p), CurAt(w', p).value) || Reaches(w', l, w'.wires[l].Far(p), CurAt(w', p).value)
    {
      var far := w.wires[l].Far(p);
      MissedStays(w, w', l, far, CurAt(w, p).value);
      if !Missed(w, l, far, CurAt(w, p).value) { ReachesStays(w, w', l, far, CurAt(w, p).value); }
    }
  }

  lemma SameSourced(w: World, w': World)
    requires Sourced(w) && Same(w, w') && w'.lost <= w.lost
    ensures Sourced(w')
  {
    SameHolds(w, w');
    SourcedStays(w, w');
  }

  // ---- Taking a copy off a connection ----

  function Take(w: World, pk: Packet): World {
    w.(flight := w.flight - multiset{pk})
  }

  lemma TakeReaches(w: World, pk: Packet, l: LinkId, q: PartyId, c: Message)
    requires Reaches(w, l, q, c)
    requires Holds(w, pk.to, pk.msg) || Awaits(w, pk.to, pk.msg) || (pk.link, pk.to, pk.msg) in w.lost
    ensures Reaches(Take(w, pk), l, q, c) || Missed(Take(w, pk), l, q, c)
  {
    var w' := Take(w, pk);
    AwaitsUnmoved(w, w');
    if Approaches(w, l, q, c) {
      var m :| Packet(l, q, m) in w.flight && Covers(Some(m), c);
      if Packet(l, q, m) == pk {
        if Holds(w, q, m) { CoversTransitive(CurAt(w, q), m, c); }
        else if Awaits(w, q, m) { assert Awaits(w', q, m); }
        else { assert (l, q, m) in w'.lost; }
      } else {
        assert Packet(l, q, m) in w'.flight;
      }
    }
  }

  lemma TakeReached(w: World, pk: Packet)
    requires Reached(w) && pk in w.flight
    requires Holds(w, pk.to, pk.msg) || Awaits(w, pk.to, pk.msg) || (pk.link, pk.to, pk.msg) in w.lost
    ensures Reached(Take(w, pk))
  {
    var w' := Take(w, pk);
    forall p, l | p in w'.parties && l in Ends(w'.parties[p]) && l in w'.wires && w'.wires[l].up && CurAt(w', p).Some?
      ensures Missed(w', l, w'.wires[l].Far(p), CurAt(w', p).value) || Reaches(w', l, w'.wires[l].Far(p), CurAt(w', p).value)
    {
      var far := w.wires[l].Far(p);
      MissedStays(w, w', l, far, CurAt(w, p).value);
      if !Missed(w, l, far, CurAt(w, p).value) { TakeReaches(w, pk, l, far, CurAt(w, p).value); }
    }
  }

  /** A copy may leave its connection towards a party that holds it, is handling it,
      or has just thrown it away while paused. */
  lemma TakeKeeps(w: World, pk: Packet)
    requires Inv(w) && pk in w.flight
    requires Holds(w, pk.to, pk.msg) || Awaits(w, pk.to, pk.msg) || (pk.link, pk.to, pk.msg) in w.lost
    ensures Inv(Take(w, pk))
  {
    hide Shape, Clips, Behind, Remembered, Reached, Sourced, Forward;
    var w' := Take(w, pk);
    SameShape(w, w');
    SameClips(w, w');
    SameBehind(w, w');
    AwaitsUnmoved(w, w');
    SameRemembered(w, w');
    TakeReached(w, pk);
    SameSourced(w, w');
    SameForward(w, w');
  }

  // ---- Ending a Handle call ----

  function Drop(w: World, h: Handling): World {
    w.(pending := w.pending - multiset{h})
  }

  lemma DropAwaits(w: World, h: Handling)
    requires Holds(w, h.at, h.msg)
    ensures forall q, m | Awaits(w, q, m) :: Awaits(Drop(w, h), q, m) || Holds(w, q, m)
  {
    forall q, m | Awaits(w, q, m) ensures Awaits(Drop(w, h), q, m) || Holds(w, q, m) {
      var l :| Handling(q, l, m) in w.pending;
      if Handling(q, l, m) != h { assert Handling(q, l, m) in Drop(w, h).pending; }
    }
  }

  lemma DropReaches(w: World, h: Handling, l: LinkId, q: PartyId, c: Message)
    requires Reaches(w, l, q, c) && Holds(w, h.at, h.msg)
    ensures Reaches(Drop(w, h), l, q, c)
  {
    var w' := Drop(w, h);
    DropAwaits(w, h);
    if Approaches(w, l, q, c) {
      assert Approaches(w', l, q, c);
    } else if AwaitsCover(w, q, c) {
      var m :| Awaits(w, q, m) && Covers(Some(m), c);
      if !Awaits(w', q, m) { CoversTransitive(CurAt(w, q), m, c); }
    }
  }

  lemma DropReached(w: World, h: Handling)
    requires Reached(w) && Holds(w, h.at, h.msg)
    ensures Reached(Drop(w, h))
  {
    var w' := Drop(w, h);
    forall p, l | p in w'.parties && l in Ends(w'.parties[p]) && l in w'.wires && w'.wires[l].up && CurAt(w', p).Some?
      ensures Missed(w', l, w'.wires[l].Far(p), CurAt(w', p).value) || Reaches(w', l, w'.wires[l].Far(p), CurAt(w', p).value)
    {
      var far := w.wires[l].Far(p);
      MissedStays(w, w', l, far, CurAt(w, p).value);
      if !Missed(w, l, far, CurAt(w, p).value) { DropReaches(w, h, l, far, CurAt(w, p).value); }
    }
  }

  /** A Handle call may end at a party that holds what it was handling. */
  lemma DropKeeps(w: World, h: Handling)
    requires Inv(w) && Holds(w, h.at, h.msg)
    ensures Inv(Drop(w, h))
  {
    hide Shape, Clips, Behind, Remembered, Reached, Sourced, Forward;
    var w' := Drop(w, h);
    SameShape(w, w');
    SameClips(w, w');
    SameBehind(w, w');
    DropAwaits(w, h);
    SameRemembered(w, w');
    DropReached(w, h);
    SameSourced(w, w');
    SameForward(w, w');
  }

  // ---- A clip arrives ----

  /** The first section of Handle, before the copy has left its connection. */
  function Noted(w: World, pk: Packet): World
    requires pk.to in w.parties && w.parties[pk.to].Node?
  {
    var d := w.parties[pk.to].device;
    var (d', go) := Check(d, pk.msg);
    w.(parties := w.parties[pk.to := Node(d')],
       lost := if d.paused then w.lost + {(pk.link, pk.to, pk.msg)} else w.lost,
       pending := if go then w.pending + multiset{Handling(pk.to, pk.link, pk.msg)} else w.pending)
  }

  lemma NotedSettles(w: World, pk: Packet)
    requires Clips(w) && Remembered(w) && pk.to in w.parties && w.parties[pk.to].Node? && pk.msg in w.issued
    ensures Holds(w, pk.to, pk.msg) || Awaits(Noted(w, pk), pk.to, pk.msg) || (pk.link, pk.to, pk.msg) in Noted(w, pk).lost
  {
    hide Genuine, Remember;
    var w' := Noted(w, pk);
    AwaitsUnmoved(w, w');
    if Check(w.parties[pk.to].device, pk.msg).1 { assert Handling(pk.to, pk.link, pk.msg) in w'.pending; }
  }

  lemma NotedRemembered(w: World, pk: Packet)
    requires Clips(w) && Remembered(w) && pk.to in w.parties && w.parties[pk.to].Node? && pk.msg in w.issued
    ensures Remembered(Noted(w, pk))
  {
    hide Genuine;
    var d := w.parties[pk.to].device;
    var w' := Noted(w, pk);
    RememberKeeps(d.seen, pk.msg.id);
    AwaitsUnmoved(w, w');
    NotedSettles(w, pk);
    SameHolds(w, w');
    forall p, x | p in w'.parties && w'.parties[p].Node? && x in w'.parties[p].device.seen
      ensures Known(w', x)
    {
      if x == pk.msg.id { assert pk.msg in w'.issued; }
      else { assert Known(w, x); }
    }
    forall p, m | p in w'.parties && w'.parties[p].Node? && m in w'.issued && m.id in w'.parties[p].device.seen
      ensures Holds(w', p, m) || Awaits(w', p, m)
    {
      if p == pk.to && m.id !in d.seen { assert m == pk.msg; }
    }
  }

  lemma InFlightIsIssued(w: World, pk: Packet)
    requires Behind(w) && pk in w.flight
    ensures pk.msg in w.issued
  {}

  lemma NotedSame(w: World, pk: Packet)
    requires pk.to in w.parties && w.parties[pk.to].Node? && pk in w.flight
    ensures var w' := Noted(w, pk);
            && Same(w, w') && w'.issued == w.issued && w'.staged == w.staged && w'.flight == w.flight
            && w.pending <= w'.pending && w.lost <= w'.lost
            && (forall h | h in w'.pending :: h in w.pending || h == Handling(pk.to, pk.link, pk.msg))
  {
    hide Remember;
  }

  lemma NotedSourced(w: World, pk: Packet)
    requires Behind(w) && Sourced(w) && pk in w.flight && pk.to in w.parties && w.parties[pk.to].Node?
    ensures Sourced(Noted(w, pk))
  {
    var w' := Noted(w, pk);
    NotedSame(w, pk);
    SameHolds(w, w');
    assert w'.lost <= w.lost + {(pk.link, pk.to, pk.msg)};
    hide Check, Holds, Noted;
  }

  lemma DeliverIsNotedThenTaken(w: World, pk: Packet)
    requires Enabled(w, Deliver(pk)) && w.parties[pk.to].Node?
    ensures Next(w, Deliver(pk)) == Take(Noted(w, pk), pk)
  {
    hide Check;
  }

  predicate Paused(p: Party) {
    p.Node? && p.device.paused
  }

  lemma CheckShape(d: Device, m: Message)
    ensures var (d', go) := Check(d, m); d' == d.(seen := d'.seen)
  {
    hide Remember;
  }

  /** What the first section of Handle does to the world. */
  lemma NodeDeliverShape(w: World, pk: Packet)
    requires Enabled(w, Deliver(pk)) && w.parties[pk.to].Node?
    ensures var w' := Next(w, Deliver(pk));
            && w' == w.(parties := w'.parties, flight := w.flight - multiset{pk}, pending := w'.pending, lost := w'.lost)
            && w'.parties.Keys == w.parties.Keys
            && (w'.pending == w.pending || w'.pending == w.pending + multiset{Handling(pk.to, pk.link, pk.msg)})
            && (w'.lost == w.lost || (Paused(w.parties[pk.to]) && w'.lost == w.lost + {(pk.link, pk.to, pk.msg)}))
            && (forall p | p in w.parties ::
                  CurAt(w', p) == CurAt(w, p) && Ends(w'.parties[p]) == Ends(w.parties[p])
                  && w'.parties[p].Node? == w.parties[p].Node? && Paused(w'.parties[p]) == Paused(w.parties[p]))
  {
    CheckShape(w.parties[pk.to].device, pk.msg);
    hide Check;
    DeliverIsNotedThenTaken(w, pk);
    hide Next;
  }

  lemma DeliverToNodeKeeps(w: World, pk: Packet)
    requires Inv(w) && Enabled(w, Deliver(pk)) && w.parties[pk.to].Node?
    ensures Inv(Next(w, Deliver(pk)))
  {
    hide Shape, Clips, Behind, Remembered, Reached, Sourced, Forward, Next, Take, Noted, Holds;
    InFlightIsIssued(w, pk);
    var w1 := Noted(w, pk);
    NotedSame(w, pk);
    SameShape(w, w1);
    SameClips(w, w1);
    SameBehind(w, w1);
    NotedRemembered(w, pk);
    SameReached(w, w1);
    NotedSourced(w, pk);
    SameForward(w, w1);
    NotedSettles(w, pk);
    SameHolds(w, w1);
    TakeKeeps(w1, pk);
    DeliverIsNotedThenTaken(w, pk);
  }

  lemma DeliverToHubKeeps(w: World, pk: Packet)
    requires Inv(w) && Enabled(w, Deliver(pk)) && w.parties[pk.to].Hub?
    ensures Inv(Next(w, Deliver(pk)))
  {
    hide Shape, Clips, Behind, Remembered, Reached, Sourced, Forward, CanAdopt, Holds, Relay.Accept;
    HubMayAdopt(w, pk);
    var a := w.parties[pk.to].acct;
    var (a', out) := Relay.Accept(a, pk.link, pk.msg);
    match out {
      case None =>
        TakeKeeps(w, pk);
      case Some(ls) =>
        var w1 := Adopt(w, pk.to, Hub(a'), pk.msg, ls);
        AdoptKeeps(w, pk.to, Hub(a'), pk.msg, ls);
        TakeKeeps(w1, pk);
        assert Next(w, Deliver(pk)).flight == w1.flight - multiset{pk};
        assert Next(w, Deliver(pk)) == Take(w1, pk);
    }
  }

  /** The hub passes a clip to every connection but the one it came from, whose far
      end holds it; a clip it refuses it holds already. */
  lemma HubMayAdopt(w: World, pk: Packet)
    requires Inv(w) && Enabled(w, Deliver(pk)) && w.parties[pk.to].Hub?
    ensures var (a', out) := Relay.Accept(w.parties[pk.to].acct, pk.link, pk.msg);
            if out.Some? then CanAdopt(w, pk.to, Hub(a'), pk.msg, out.value) else Holds(w, pk.to, pk.msg)
  {
    hide Remembered, Reached, Sourced, Forward, Genuine;
    CoversSelf(pk.msg);
  }

  /** A genuine clip opens, so the second section of Handle is reached. */
  lemma FinishOpens(w: World, h: Handling)
    requires Genuine(w.key, h.msg)
    ensures OpenClip(w.key, h.msg).Some? && ContentFrom(h.msg, OpenClip(w.key, h.msg).value).Some?
  {
    var c: Content :| SealedFrom(w.key, h.msg, c);
    GenuineClipsOpen(w.key, h.msg, c);
  }

  lemma HandledIsGenuine(w: World, h: Handling)
    requires Clips(w) && Behind(w) && h in w.pending
    ensures Genuine(w.key, h.msg)
  {
    hide Genuine;
  }

  lemma DeviceMayAdopt(w: World, h: Handling, hash: Hash)
    requires Behind(w) && Enabled(w, Finish(h))
    ensures var (d', outcome) := Commit(w.parties[h.at].device, h.link, h.msg, hash);
            if outcome.Adopted? then CanAdopt(w, h.at, Node(d'), h.msg, outcome.forward) else Holds(w, h.at, h.msg)
  {
    assert h.msg in w.issued && Holds(w, w.wires[h.link].Far(h.at), h.msg);
    hide Behind, Beats;
  }

  lemma FinishKeeps(w: World, h: Handling)
    requires Inv(w) && Enabled(w, Finish(h))
    ensures Inv(Next(w, Finish(h)))
  {
    hide Shape, Clips, Behind, Remembered, Reached, Sourced, Forward, CanAdopt, Holds, OpenClip, ContentFrom, Genuine;
    var d := w.parties[h.at].device;
    HandledIsGenuine(w, h);
    FinishOpens(w, h);
    var c := ContentFrom(h.msg, OpenClip(w.key, h.msg).value).value;
    DeviceMayAdopt(w, h, c.Digest());
    var (d', outcome) := Commit(d, h.link, h.msg, c.Digest());
    match outcome {
      case Stale =>
        DropKeeps(w, h);
        assert Next(w, Finish(h)) == Drop(w, h);
      case Adopted(ls, _) =>
        AdoptKeeps(w, h.at, Node(d'), h.msg, ls);
        var w1 := Adopt(w, h.at, Node(d'), h.msg, ls);
        DropKeeps(w1, h);
        assert Next(w, Finish(h)) == Drop(w1, h);
    }
  }

  // ---- Something is copied ----

  /** LocalCopy's first section touches no clip, link or copy under way; at most it
      stamps one genuine clip under the fresh id. */
  lemma CopySame(w: World, e: Event)
    requires Enabled(w, e) && e.Copy?
    ensures var w' := Next(w, e);
            && Same(w, w') && w'.flight == w.flight && w'.pending == w.pending && w'.lost == w.lost
            && (forall p | p in w.parties && w.parties[p].Node? :: w'.parties[p].device.seen == w.parties[p].device.seen)
            && w.issued <= w'.issued
            && (forall m | m in w'.issued && m !in w.issued :: Genuine(w.key, m) && m.id == e.id)
            && (forall m, n | m in w'.issued && n in w'.issued && m !in w.issued && n !in w.issued :: m == n)
            && (forall s | s in w'.staged :: s in w.staged || s.msg in w'.issued)
  {
    hide Genuine, Stamp, ClipAad;
    assert Next(w, e).parties.Keys == w.parties.Keys;
    OriginateIsGenuine(w.parties[e.p].device, e.c, e.now, e.id, e.me, e.name, w.key);
  }

  lemma CopyRemembered(w: World, e: Event)
    requires Remembered(w) && Enabled(w, e) && e.Copy?
    ensures Remembered(Next(w, e))
  {
    hide Genuine;
    var w' := Next(w, e);
    CopySame(w, e);
    hide Next;
    AwaitsUnmoved(w, w');
    SameHolds(w, w');
    forall p, x | p in w'.parties && w'.parties[p].Node? && x in w'.parties[p].device.seen
      ensures Known(w', x) && x != e.id
    {
      assert Known(w, x);
      var m :| m in w.issued && m.id == x;
      assert m in w'.issued;
    }
    forall p, m | p in w'.parties && w'.parties[p].Node? && m in w'.issued && m.id in w'.parties[p].device.seen
      ensures Holds(w', p, m) || Awaits(w', p, m)
    {
      assert Known(w', m.id);
      assert m in w.issued;
    }
  }

  lemma CopyClips(w: World, e: Event)
    requires Clips(w) && Enabled(w, e) && e.Copy?
    ensures Clips(Next(w, e))
  {
    var w' := Next(w, e);
    CopySame(w, e);
    hide Genuine, Next;
    forall m, n | m in w'.issued && n in w'.issued && m.id == n.id ensures m == n {}
  }

  lemma CopyKeeps(w: World, e: Event)
    requires Inv(w) && Enabled(w, e) && e.Copy?
    ensures Inv(Next(w, e))
  {
    hide Shape, Clips, Behind, Remembered, Reached, Sourced, Forward, Next;
    var w' := Next(w, e);
    CopySame(w, e);
    SameShape(w, w');
    CopyClips(w, e);
    SameBehind(w, w');
    CopyRemembered(w, e);
    SameReached(w, w');
    SameSourced(w, w');
    SameForward(w, w');
  }

  lemma UnstageKeeps(w: World, s: Staged)
    requires Inv(w)
    ensures Inv(w.(staged := w.staged - multiset{s}))
  {
    hide Shape, Clips, Behind, Remembered, Reached, Sourced, Forward;
    var w' := w.(staged := w.staged - multiset{s});
    SameShape(w, w');
    SameClips(w, w');
    SameBehind(w, w');
    AwaitsUnmoved(w, w');
    SameRemembered(w, w');
    SameReached(w, w');
    SameSourced(w, w');
    SameForward(w, w');
  }

  lemma PublishMayAdopt(w: World, s: Staged)
    requires Inv(w) && Enabled(w, Publishing(s)) && Calm(w, Publishing(s))
    ensures var (d, ls) := Publish(w.parties[s.at].device, s.msg);
            CanAdopt(w.(staged := w.staged - multiset{s}), s.at, Node(d), s.msg, ls)
  {
    hide Remembered, Reached, Sourced, Forward, Genuine;
    RememberKeeps(w.parties[s.at].device.seen, s.msg.id);
  }

  lemma PublishKeeps(w: World, s: Staged)
    requires Inv(w) && Enabled(w, Publishing(s)) && Calm(w, Publishing(s))
    ensures Inv(Next(w, Publishing(s)))
  {
    hide Shape, Clips, Behind, Remembered, Reached, Sourced, Forward, CanAdopt;
    PublishMayAdopt(w, s);
    UnstageKeeps(w, s);
    var (d, ls) := Publish(w.parties[s.at].device, s.msg);
    AdoptKeeps(w.(staged := w.staged - multiset{s}), s.at, Node(d), s.msg, ls);
  }

  // ---- Connections come and go ----

  lemma PausedKeeps(w: World, p: PartyId, b: bool)
    requires Inv(w) && Enabled(w, SetPaused(p, b))
    ensures Inv(Next(w, SetPaused(p, b)))
  {
    hide Shape, Clips, Behind, Reached, Sourced, Forward;
    var w' := Next(w, SetPaused(p, b));
    SameShape(w, w');
    SameClips(w, w');
    SameBehind(w, w');
    AwaitsUnmoved(w, w');
    SameHolds(w, w');
    assert forall x | Known(w, x) :: Known(w', x);
    assert Remembered(w');
    SameReached(w, w');
    SameSourced(w, w');
    SameForward(w, w');
  }

  /** Connections appear or go down and ends forget them: fewer working connections
      that anyone has registered, everything else as it was. */
  ghost predicate Rewired(w: World, w': World) {
    && w' == w.(parties := w'.parties, wires := w'.wires)
    && w'.parties.Keys == w.parties.Keys
    && (forall p | p in w.parties ::
          CurAt(w', p) == CurAt(w, p) && Ends(w'.parties[p]) <= Ends(w.parties[p]) && w'.parties[p].Node? == w.parties[p].Node?
          && (w.parties[p].Node? ==> w'.parties[p].device.seen == w.parties[p].device.seen))
    && (forall l | l in w.wires :: l in w'.wires && w'.wires[l].a == w.wires[l].a && w'.wires[l].b == w.wires[l].b
                                   && (w'.wires[l].up ==> w.wires[l].up))
  }

  lemma RewiredHolds(w: World, w': World)
    requires Rewired(w, w')
    ensures forall p, m :: Holds(w, p, m) == Holds(w', p, m)
  {}

  lemma RewiredBehind(w: World, w': World)
    requires Behind(w) && Rewired(w, w')
    ensures Behind(w')
  {
    RewiredHolds(w, w');
  }

  lemma RewiredRemembered(w: World, w': World)
    requires Remembered(w) && Rewired(w, w')
    ensures Remembered(w')
  {
    RewiredHolds(w, w');
    AwaitsUnmoved(w, w');
    assert forall x | Known(w, x) :: Known(w', x);
  }

  lemma RewiredReached(w: World, w': World)
    requires Shape(w) && Reached(w) && Rewired(w, w')
    ensures Reached(w')
  {
    assert Ascends(w, w') by {
      forall p | p in w.parties && CurAt(w, p).Some? ensures Covers(CurAt(w', p), CurAt(w, p).value) {
        CoversSelf(CurAt(w, p).value);
      }
    }
    forall p, l | p in w'.parties && l in Ends(w'.parties[p]) && l in w'.wires && w'.wires[l].up && CurAt(w', p).Some?
      ensures Missed(w', l, w'.wires[l].Far(p), CurAt(w', p).value) || Reaches(w', l, w'.wires[l].Far(p), CurAt(w', p).value)
    {
      var far := w.wires[l].Far(p);
      MissedStays(w, w', l, far, CurAt(w, p).value);
      if !Missed(w, l, far, CurAt(w, p).value) { ReachesStays(w, w', l, far, CurAt(w, p).value); }
    }
  }

  lemma RewiredSourced(w: World, w': World)
    requires Sourced(w) && Rewired(w, w')
    ensures Sourced(w')
  {
    RewiredHolds(w, w');
    SourcedStays(w, w');
  }

  lemma RewiredOthers(w: World, w': World)
    requires Clips(w) && Forward(w) && Rewired(w, w')
    ensures Clips(w') && Forward(w')
  {
    hide Genuine, Ascending;
  }

  lemma ConnectRewires(w: World, l: LinkId, a: PartyId, b: PartyId)
    requires Shape(w) && Enabled(w, Connect(l, a, b))
    ensures Shape(Next(w, Connect(l, a, b))) && Rewired(w, Next(w, Connect(l, a, b)))
  {}

  lemma BreakRewires(w: World, l: LinkId)
    requires Shape(w) && Enabled(w, Break(l))
    ensures Shape(Next(w, Break(l))) && Rewired(w, Next(w, Break(l)))
  {}

  lemma UnregisterRewires(w: World, p: PartyId, l: LinkId)
    requires Shape(w) && Enabled(w, Unregister(p, l))
    ensures Shape(Next(w, Unregister(p, l))) && Rewired(w, Next(w, Unregister(p, l)))
  {}

  lemma RewiredKeeps(w: World, e: Event)
    requires Inv(w) && Enabled(w, e) && (e.Connect? || e.Break? || e.Unregister?)
    ensures Inv(Next(w, e))
  {
    hide Shape, Clips, Behind, Remembered, Reached, Sourced, Forward, Next, Enabled, Rewired;
    var w' := Next(w, e);
    match e {
      case Connect(l, a, b) => ConnectRewires(w, l, a, b);
      case Break(l) => BreakRewires(w, l);
      case Unregister(p, l) => UnregisterRewires(w, p, l);
    }
    RewiredOthers(w, w');
    RewiredBehind(w, w');
    RewiredRemembered(w, w');
    RewiredReached(w, w');
    RewiredSourced(w, w');
  }

  // ---- An end registers a connection ----

  /** Registering sends the current clip over the new link and changes nothing else. */
  lemma RegisterSame(w: World, p: PartyId, l: LinkId)
    requires Enabled(w, Register(p, l))
    ensures var w' := Next(w, Register(p, l));
            && w'.parties.Keys == w.parties.Keys && w' == w.(parties := w'.parties, flight := w'.flight)
            && w.flight <= w'.flight
            && (forall q | q in w.parties :: CurAt(w', q) == CurAt(w, q) && w'.parties[q].Node? == w.parties[q].Node?
                  && (q != p ==> Ends(w'.parties[q]) == Ends(w.parties[q]))
                  && (w.parties[q].Node? ==> w'.parties[q].device.seen == w.parties[q].device.seen))
            && Ends(w'.parties[p]) == Ends(w.parties[p]) + {l}
            && (forall pk | pk in w'.flight :: pk in w.flight || (CurAt(w, p).Some? && pk in Sends(w, p, {l}, CurAt(w, p).value)))
            && (CurAt(w, p).Some? && w.wires[l].up ==> Packet(l, w.wires[l].Far(p), CurAt(w, p).value) in w'.flight)
  {
    if CurAt(w, p).Some? && w.wires[l].up {
      assert Packet(l, w.wires[l].Far(p), CurAt(w, p).value) in Sends(w, p, {l}, CurAt(w, p).value);
    }
  }

  lemma RegisterReached(w: World, p: PartyId, l: LinkId)
    requires Reached(w) && Enabled(w, Register(p, l))
    ensures Reached(Next(w, Register(p, l)))
  {
    var w' := Next(w, Register(p, l));
    RegisterSame(w, p, l);
    hide Next;
    assert Ascends(w, w') by {
      forall q | q in w.parties && CurAt(w, q).Some? ensures Covers(CurAt(w', q), CurAt(w, q).value) {
        CoversSelf(CurAt(w, q).value);
      }
    }
    forall q, k | q in w'.parties && k in Ends(w'.parties[q]) && k in w'.wires && w'.wires[k].up && CurAt(w', q).Some?
      ensures Missed(w', k, w'.wires[k].Far(q), CurAt(w', q).value) || Reaches(w', k, w'.wires[k].Far(q), CurAt(w', q).value)
    {
      var far := w.wires[k].Far(q);
      if q == p && k == l {
        CoversSelf(CurAt(w, p).value);
        assert Approaches(w', l, far, CurAt(w, p).value);
      } else {
        MissedStays(w, w', k, far, CurAt(w, q).value);
        if !Missed(w, k, far, CurAt(w, q).value) { ReachesStays(w, w', k, far, CurAt(w, q).value); }
      }
    }
  }

  lemma RegisterHolds(w: World, p: PartyId, l: LinkId)
    requires Enabled(w, Register(p, l))
    ensures forall q, m :: Holds(w, q, m) == Holds(Next(w, Register(p, l)), q, m)
  {
    RegisterSame(w, p, l);
    hide Next;
  }

  lemma RegisterShape(w: World, p: PartyId, l: LinkId)
    requires Shape(w) && Enabled(w, Register(p, l))
    ensures Shape(Next(w, Register(p, l)))
  {
    RegisterSame(w, p, l);
    hide Next;
  }

  lemma RegisterSends(w: World, p: PartyId, l: LinkId, pk: Packet)
    requires Clips(w) && Enabled(w, Register(p, l)) && CurAt(w, p).Some? && pk in Sends(w, p, {l}, CurAt(w, p).value)
    requires Shape(w)
    ensures pk.msg in w.issued && pk.link in w.wires && w.wires[pk.link].HasEnd(pk.to) && Holds(w, w.wires[pk.link].Far(pk.to), pk.msg)
  {
    hide Genuine;
    CoversSelf(CurAt(w, p).value);
  }

  lemma RegisterBehind(w: World, p: PartyId, l: LinkId)
    requires Shape(w) && Clips(w) && Behind(w) && Enabled(w, Register(p, l))
    ensures Behind(Next(w, Register(p, l)))
  {
    hide Shape, Clips, Next, Holds, Sends, Enabled;
    var w' := Next(w, Register(p, l));
    RegisterSame(w, p, l);
    RegisterHolds(w, p, l);
    forall pk | pk in w'.flight
      ensures pk.msg in w'.issued && pk.link in w'.wires && w'.wires[pk.link].HasEnd(pk.to)
              && Holds(w', w'.wires[pk.link].Far(pk.to), pk.msg)
    {
      if pk !in w.flight { RegisterSends(w, p, l, pk); }
    }
  }

  lemma RegisterClips(w: World, p: PartyId, l: LinkId)
    requires Clips(w) && Enabled(w, Register(p, l))
    ensures Clips(Next(w, Register(p, l)))
  {
    RegisterSame(w, p, l);
    hide Genuine, Next;
  }

  lemma RegisterRemembered(w: World, p: PartyId, l: LinkId)
    requires Remembered(w) && Enabled(w, Register(p, l))
    ensures Remembered(Next(w, Register(p, l)))
  {
    var w' := Next(w, Register(p, l));
    RegisterSame(w, p, l);
    RegisterHolds(w, p, l);
    hide Next;
    AwaitsUnmoved(w, w');
    assert forall x | Known(w, x) :: Known(w', x);
  }

  lemma RegisterSourced(w: World, p: PartyId, l: LinkId)
    requires Sourced(w) && Enabled(w, Register(p, l))
    ensures Sourced(Next(w, Register(p, l)))
  {
    RegisterSame(w, p, l);
    RegisterHolds(w, p, l);
    hide Next;
    SourcedStays(w, Next(w, Register(p, l)));
  }

  lemma RegisterForward(w: World, p: PartyId, l: LinkId)
    requires Forward(w) && Enabled(w, Register(p, l))
    ensures Forward(Next(w, Register(p, l)))
  {
    RegisterSame(w, p, l);
    hide Ascending, Next;
  }

  lemma RegisterKeeps(w: World, p: PartyId, l: LinkId)
    requires Inv(w) && Enabled(w, Register(p, l))
    ensures Inv(Next(w, Register(p, l)))
  {
    hide Shape, Clips, Behind, Remembered, Reached, Sourced, Forward, Next;
    RegisterShape(w, p, l);
    RegisterClips(w, p, l);
    RegisterBehind(w, p, l);
    RegisterRemembered(w, p, l);
    RegisterReached(w, p, l);
    RegisterSourced(w, p, l);
    RegisterForward(w, p, l);
  }

  /** Every calm step of the system keeps the invariant. */
  lemma StepKeeps(w: World, e: Event)
    requires Inv(w) && Enabled(w, e) && Calm(w, e)
    ensures Inv(Next(w, e))
  {
    hide Inv, Next;
    match e
    case Connect(l, a, b) => RewiredKeeps(w, e);
    case Register(p, l) => RegisterKeeps(w, p, l);
    case Break(l) => RewiredKeeps(w, e);
    case Unregister(p, l) => RewiredKeeps(w, e);
    case Deliver(pk) =>
      if w.parties[pk.to].Node? { DeliverToNodeKeeps(w, pk); } else { DeliverToHubKeeps(w, pk); }
    case Finish(h) => FinishKeeps(w, h);
    case Copy(p, c, now, id, me, name) => CopyKeeps(w, e);
    case Publishing(s) => PublishKeeps(w, s);
    case SetPaused(p, b) => PausedKeeps(w, p, b);
  }

  lemma FreshInv(w: World)
    requires Fresh(w)
    ensures Inv(w)
  {}

  /** So does every calm run, from any world that satisfies it. */
  lemma {:induction false} RunKeeps(w: World, es: seq<Event>)
    requires Inv(w) && Runs(w, es) && CalmRun(w, es)
    ensures Inv(After(w, es))
    decreases |es|
  {
    hide Inv, Next, Enabled, Calm;
    if es != [] {
      StepKeeps(w, es[0]);
      RunKeeps(Next(w, es[0]), es[1..]);
    }
  }
}
