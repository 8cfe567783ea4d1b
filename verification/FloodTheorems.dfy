/** The claims made for the sync engine: any topology converges on the newest clip,
    every party takes a clip at most once, and flooding stops. */
module FloodTheorems {
  import opened Basics
  import opened Wire
  import opened Sync
  import opened Flood
  import opened Convergence
  import Relay

  // ---- Agreement once the network is quiet ----

  /** `l` works and both ends have registered it. */
  predicate Linked(w: World, p: PartyId, q: PartyId, l: LinkId) {
    && p in w.parties && q in w.parties && p != q && l in w.wires && w.wires[l].up
    && w.wires[l].HasEnd(p) && w.wires[l].HasEnd(q)
    && l in Ends(w.parties[p]) && l in Ends(w.parties[q])
  }

  /** `q`, while paused, dropped from `l` a clip that it does not hold to this day. */
  ghost predicate Lacks(w: World, q: PartyId, l: LinkId) {
    exists m :: (l, q, m) in w.lost && !Holds(w, q, m)
  }

  /** Linked, and neither end lacks a clip it dropped. */
  ghost predicate Joined(w: World, p: PartyId, q: PartyId, l: LinkId) {
    Linked(w, p, q, l) && !Lacks(w, p, l) && !Lacks(w, q, l)
  }

  /** No Handle call is under way and no copy waits at a working connection whose
      receiving end is registered. */
  predicate Quiet(w: World) {
    w.pending == multiset{} && forall pk | pk in w.flight :: !Arriving(w, pk)
  }

  predicate Arriving(w: World, pk: Packet) {
    pk.to in w.parties && pk.link in Ends(w.parties[pk.to]) && pk.link in w.wires && w.wires[pk.link].up
  }

  lemma QuietReaches(w: World, p: PartyId, q: PartyId, l: LinkId)
    requires Inv(w) && Quiet(w) && Linked(w, p, q, l) && !Lacks(w, q, l)
    ensures CurAt(w, p).Some? ==> Holds(w, q, CurAt(w, p).value)
  {
    hide Shape, Clips, Behind, Remembered, Sourced, Forward;
    assert w.wires[l].Far(p) == q;
    if CurAt(w, p).Some? {
      var m := CurAt(w, p).value;
      if Missed(w, l, q, m) {
        var x :| (l, q, x) in w.lost && Covers(Some(x), m);
        CoversTransitive(CurAt(w, q), x, m);
      } else {
        assert Reaches(w, l, q, m);
        assert forall m' :: Arriving(w, Packet(l, q, m'));
        assert !Approaches(w, l, q, m);
      }
    }
  }

  /** What an end lacks, the other end has. */
  lemma LackingDiffers(w: World, p: PartyId, q: PartyId, l: LinkId)
    requires Sourced(w) && Linked(w, p, q, l) && Lacks(w, q, l)
    ensures CurAt(w, p) != CurAt(w, q)
  {
    var m :| (l, q, m) in w.lost && !Holds(w, q, m);
    assert w.wires[l].Far(q) == p;
  }

  lemma IssuedById(w: World, p: PartyId, q: PartyId)
    requires Clips(w) && p in w.parties && q in w.parties && CurAt(w, p).Some? && CurAt(w, q).Some?
    requires CurAt(w, p).value.id == CurAt(w, q).value.id
    ensures CurAt(w, p) == CurAt(w, q)
  {
    hide Genuine;
  }

  lemma NeighboursAgree(w: World, p: PartyId, q: PartyId, l: LinkId)
    requires Inv(w) && Quiet(w) && Joined(w, p, q, l)
    ensures CurAt(w, p) == CurAt(w, q)
  {
    hide Shape, Clips, Behind, Remembered, Reached, Sourced, Forward, Quiet, Lacks;
    QuietReaches(w, p, q, l);
    QuietReaches(w, q, p, l);
    if CurAt(w, p).Some? && CurAt(w, q).Some? {
      CoversAntisymmetric(CurAt(w, p).value, CurAt(w, q).value);
      IssuedById(w, p, q);
    }
  }

  /** In a quiet network two linked parties differ exactly when one of them, while it was
      paused, dropped from that link a clip it has not come to hold since. */
  lemma QuietNeighboursDiffer(w: World, p: PartyId, q: PartyId, l: LinkId)
    requires Inv(w) && Quiet(w) && Linked(w, p, q, l)
    ensures CurAt(w, p) != CurAt(w, q) <==> Lacks(w, p, l) || Lacks(w, q, l)
  {
    hide Shape, Clips, Behind, Remembered, Reached, Sourced, Forward, Quiet, Lacks;
    if Lacks(w, q, l) {
      LackingDiffers(w, p, q, l);
    } else if Lacks(w, p, l) {
      LackingDiffers(w, q, p, l);
    } else {
      NeighboursAgree(w, p, q, l);
    }
  }

  /** Exactly where a dropped clip is lacking do linked parties differ. */
  ghost predicate LossExplains(w: World) {
    forall p, q, l | Linked(w, p, q, l) :: CurAt(w, p) != CurAt(w, q) <==> Lacks(w, p, l) || Lacks(w, q, l)
  }

  lemma QuietExplains(w: World)
    requires Inv(w) && Quiet(w)
    ensures LossExplains(w)
  {
    hide Inv, Quiet, Lacks;
    forall p, q, l | Linked(w, p, q, l) ensures CurAt(w, p) != CurAt(w, q) <==> Lacks(w, p, l) || Lacks(w, q, l) {
      QuietNeighboursDiffer(w, p, q, l);
    }
  }

  /** A chain of parties, each joined to the next. */
  ghost predicate Chain(w: World, path: seq<PartyId>) {
    && (forall p | p in path :: p in w.parties)
    && forall i | 0 <= i < |path| - 1 :: LinkBetween(w, path[i], path[i + 1])
  }

  ghost predicate LinkBetween(w: World, p: PartyId, q: PartyId) {
    exists l :: Joined(w, p, q, l)
  }

  lemma {:induction false} ChainAgrees(w: World, path: seq<PartyId>, j: nat)
    requires Inv(w) && Quiet(w) && Chain(w, path) && j < |path|
    ensures CurAt(w, path[j]) == CurAt(w, path[0])
  {
    hide Inv, Quiet;
    if j > 0 {
      ChainAgrees(w, path, j - 1);
      assert LinkBetween(w, path[j - 1], path[j]);
      var l :| Joined(w, path[j - 1], path[j], l);
      NeighboursAgree(w, path[j - 1], path[j], l);
    }
  }

  lemma {:induction false} LogIsCovered(w: World, p: PartyId, m: Message)
    requires Forward(w) && p in w.parties && p in w.log && m in w.log[p]
    ensures Holds(w, p, m) && CurAt(w, p).Some? && CurAt(w, p).value in w.log[p]
  {
    var k :| 0 <= k < |w.log[p]| && w.log[p][k] == m;
    var last := |w.log[p]| - 1;
    assert w.log[p][last] in w.log[p];
    if k == last { CoversSelf(m); }
    else { NewerCovers(w.log[p][last], m); }
  }

  /** All parties of a chain hold one clip, which one of them did take and which is at
      least as new as every clip any of them ever held. */
  ghost predicate Agreed(w: World, path: seq<PartyId>) {
    && (forall p, q | p in path && q in path :: p in w.parties && q in w.parties && CurAt(w, p) == CurAt(w, q))
    && (forall p, q, m | p in path && q in path && q in w.log && m in w.log[q] :: Holds(w, p, m))
    && (forall p | p in path && CurAt(w, p).Some? :: p in w.log && CurAt(w, p).value in w.log[p])
  }

  lemma QuietAgrees(w: World, path: seq<PartyId>)
    requires Inv(w) && Quiet(w) && Chain(w, path)
    ensures Agreed(w, path)
  {
    forall p, q | p in path && q in path ensures CurAt(w, p) == CurAt(w, q) {
      hide Inv, Quiet;
      var i :| 0 <= i < |path| && path[i] == p;
      var j :| 0 <= j < |path| && path[j] == q;
      ChainAgrees(w, path, i);
      ChainAgrees(w, path, j);
    }
    hide Shape, Clips, Behind, Remembered, Reached, Quiet;
    forall p, q, m | p in path && q in path && q in w.log && m in w.log[q] ensures Holds(w, p, m) {
      LogIsCovered(w, q, m);
    }
  }

  // ---- Flooding stops ----

  predicate Delivery(e: Event) {
    e.Deliver? || e.Finish?
  }

  /** The (party, clip) pairs still ahead: clips that would replace the party's. */
  function Todo(w: World): set<(PartyId, Message)> {
    set p, m | p in w.parties && m in w.issued && Newer(m, CurAt(w, p)) :: (p, m)
  }

  /** A bound on how many deliveries can follow without a new copy or connection. */
  function Weight(w: World): nat {
    |Todo(w)| * (2 * |w.wires| + 2) + 2 * |w.flight| + |w.pending|
  }

  lemma {:induction false} SendsFewerThanLinks(w: World, p: PartyId, ls: set<LinkId>, m: Message)
    ensures |Sends(w, p, ls, m)| <= |ls|
  {
    if ls != {} {
      var l :| l in ls;
      var rest := ls - {l};
      SendsFewerThanLinks(w, p, rest, m);
      var one := Sends(w, p, {l}, m);
      assert one <= {Packet(l, if l in w.wires then w.wires[l].Far(p) else p, m)};
      SubsetIsNoLarger(one, {Packet(l, if l in w.wires then w.wires[l].Far(p) else p, m)});
      assert Sends(w, p, ls, m) == Sends(w, p, rest, m) + one;
    }
  }

  lemma SendsFewerThanWires(w: World, p: PartyId, ls: set<LinkId>, m: Message)
    ensures |Sends(w, p, ls, m)| <= |w.wires|
  {
    var known := ls * w.wires.Keys;
    assert Sends(w, p, ls, m) == Sends(w, p, known, m);
    SendsFewerThanLinks(w, p, known, m);
    SubsetIsNoLarger(known, w.wires.Keys);
  }

  lemma AdoptLeavesLess(w: World, p: PartyId, party: Party, m: Message, ls: set<LinkId>)
    requires p in w.parties && m in w.issued && Newer(m, CurAt(w, p)) && Cur(party) == Some(m)
    ensures |Todo(Adopt(w, p, party, m, ls))| < |Todo(w)|
    ensures |Adopt(w, p, party, m, ls).flight| <= |w.flight| + |w.wires|
  {
    var w' := Adopt(w, p, party, m, ls);
    SendsFewerThanWires(w, p, ls, m);
    assert |multiset(Sends(w, p, ls, m))| == |Sends(w, p, ls, m)|;
    assert (p, m) in Todo(w);
    forall x | x in Todo(w') ensures x in Todo(w) - {(p, m)} {
      BeatsIrreflexive(m);
      if x.0 == p && CurAt(w, p).Some? { BeatsTransitive(x.1, m, CurAt(w, p).value); }
    }
    SubsetIsNoLarger(Todo(w'), Todo(w) - {(p, m)});
  }

  lemma StepBound(a: nat, b: nat, k: nat)
    requires a < b
    ensures a * k + k <= b * k
  {
    assert b * k - (a + 1) * k == (b - a - 1) * k;
    assert (b - a - 1) * k >= 0;
  }

  lemma LessIsLess(todo: nat, todo': nat, wires: nat, flight: nat, flight': nat, pending: nat, pending': nat)
    requires todo' < todo && flight' <= flight + wires && pending' <= pending
    ensures todo' * (2 * wires + 2) + 2 * flight' + pending' < todo * (2 * wires + 2) + 2 * flight + pending
  {
    StepBound(todo', todo, 2 * wires + 2);
  }

  lemma AdoptLightens(w: World, p: PartyId, party: Party, m: Message, ls: set<LinkId>)
    requires p in w.parties && m in w.issued && Newer(m, CurAt(w, p)) && Cur(party) == Some(m)
    ensures Weight(Adopt(w, p, party, m, ls)) < Weight(w)
  {
    hide Todo, Newer;
    var w' := Adopt(w, p, party, m, ls);
    AdoptLeavesLess(w, p, party, m, ls);
    LessIsLess(|Todo(w)|, |Todo(w')|, |w.wires|, |w.flight|, |w'.flight|, |w.pending|, |w'.pending|);
  }

  lemma TodoSame(w: World, w': World)
    requires w'.parties.Keys == w.parties.Keys && w'.issued == w.issued
    requires forall p | p in w.parties :: CurAt(w', p) == CurAt(w, p)
    ensures Todo(w') == Todo(w)
  {}

  lemma NodeDeliverLightens(w: World, pk: Packet)
    requires Enabled(w, Deliver(pk)) && w.parties[pk.to].Node?
    ensures Weight(Next(w, Deliver(pk))) < Weight(w)
  {
    NodeDeliverShape(w, pk);
    hide Next, Newer, Paused;
    var w' := Next(w, Deliver(pk));
    TodoSame(w, w');
    hide Todo;
    assert |w'.flight| == |w.flight| - 1 && |w'.pending| <= |w.pending| + 1;
  }

  lemma HubDeliverLightens(w: World, pk: Packet)
    requires Enabled(w, Deliver(pk)) && w.parties[pk.to].Hub? && pk.msg in w.issued
    ensures Weight(Next(w, Deliver(pk))) < Weight(w)
  {
    var w0 := w.(flight := w.flight - multiset{pk});
    var (a', out) := Relay.Accept(w.parties[pk.to].acct, pk.link, pk.msg);
    TodoSame(w, w0);
    assert Weight(w0) < Weight(w) by { hide Todo; }
    hide Weight;
    if out.Some? { AdoptLightens(w0, pk.to, Hub(a'), pk.msg, out.value); }
  }

  lemma FinishedNoHeavier(w: World, h: Handling)
    requires h.at in w.parties && w.parties[h.at].Node? && h.msg in w.issued
    ensures Weight(Finished(w, h)) <= Weight(w)
  {
    hide Weight, Todo, OpenClip, ContentFrom;
    if OpenClip(w.key, h.msg).Some? && ContentFrom(h.msg, OpenClip(w.key, h.msg).value).Some? {
      var c := ContentFrom(h.msg, OpenClip(w.key, h.msg).value).value;
      var (d', outcome) := Commit(w.parties[h.at].device, h.link, h.msg, c.Digest());
      if outcome.Adopted? { AdoptLightens(w, h.at, Node(d'), h.msg, outcome.forward); }
    }
  }

  lemma FinishLightens(w: World, h: Handling)
    requires Enabled(w, Finish(h)) && h.msg in w.issued
    ensures Weight(Next(w, Finish(h))) < Weight(w)
  {
    hide Todo, Finished;
    var w0 := w.(pending := w.pending - multiset{h});
    TodoSame(w, w0);
    FinishedNoHeavier(w0, h);
  }

  lemma HandledIsIssued(w: World, h: Handling)
    requires Behind(w) && h in w.pending
    ensures h.msg in w.issued
  {}

  lemma DeliveryLightens(w: World, e: Event)
    requires Inv(w) && Enabled(w, e) && Delivery(e)
    ensures Weight(Next(w, e)) < Weight(w)
  {
    hide Shape, Clips, Behind, Remembered, Reached, Forward, Weight, Next;
    match e {
      case Deliver(pk) =>
        InFlightIsIssued(w, pk);
        if w.parties[pk.to].Node? { NodeDeliverLightens(w, pk); } else { HubDeliverLightens(w, pk); }
      case Finish(h) =>
        HandledIsIssued(w, h);
        FinishLightens(w, h);
    }
  }

  predicate Deliveries(es: seq<Event>) {
    forall e | e in es :: Delivery(e)
  }

  /** Without new copies or connections, no run can deliver for ever: any topology,
      any order, any number of copies already under way. */
  lemma {:induction false} FloodingStops(w: World, es: seq<Event>)
    requires Inv(w) && Runs(w, es) && Deliveries(es)
    ensures CalmRun(w, es)
    ensures |es| <= Weight(w) - Weight(After(w, es))
    decreases |es|
  {
    hide Inv, Next, Enabled, Weight;
    if es != [] {
      assert Delivery(es[0]);
      DeliveryLightens(w, es[0]);
      StepKeeps(w, es[0]);
      FloodingStops(Next(w, es[0]), es[1..]);
    }
  }

  /** Unless the network is quiet, something can be delivered. */
  lemma NotQuietMoves(w: World) returns (e: Event)
    requires Inv(w) && !Quiet(w)
    ensures Delivery(e) && Enabled(w, e)
  {
    hide Shape, Clips, Remembered, Reached, Forward;
    if w.pending != multiset{} {
      var h :| h in w.pending;
      e := Finish(h);
    } else {
      var pk :| pk in w.flight && Arriving(w, pk);
      e := Deliver(pk);
    }
  }

  lemma {:induction false} OneMore(w: World, es: seq<Event>, e: Event)
    requires Runs(w, es) && Enabled(After(w, es), e)
    ensures Runs(w, es + [e]) && After(w, es + [e]) == Next(After(w, es), e)
    ensures CalmRun(w, es + [e]) <==> CalmRun(w, es) && Calm(After(w, es), e)
    decreases |es|
  {
    hide Next, Enabled, Calm;
    if es == [] {
      assert es + [e] == [e] && [e][1..] == [];
    } else {
      OneMore(Next(w, es[0]), es[1..], e);
      assert (es + [e])[0] == es[0] && (es + [e])[1..] == es[1..] + [e];
    }
  }

  /** The main theorem. Take any calm run `es` from a fresh system: any topology of
      devices and relays, connections coming and going, copies crossing in any order.
      Then deliver what is under way, in any order whatever. There is a bound on how
      long that can go on, and when nothing more can be delivered, all parties along a
      chain of working connections hold one clip, at least as new as any clip any of them ever
      held, and one they did hold; and two linked parties differ only where one of them,
      while paused, threw away a clip that it has not come to hold since. */
  lemma AnyTopologyConverges(w0: World, es: seq<Event>, ds: seq<Event>)
    requires Fresh(w0) && Runs(w0, es) && CalmRun(w0, es)
    requires Runs(After(w0, es), ds) && Deliveries(ds)
    ensures |ds| <= Weight(After(w0, es))
    ensures var w := After(After(w0, es), ds);
            (forall e | Delivery(e) :: !Enabled(w, e)) ==>
              && (forall path | Chain(w, path) :: Agreed(w, path))
              && LossExplains(w)
  {
    hide Weight, Agreed, Chain, Inv, Fresh, LossExplains;
    FreshInv(w0);
    RunKeeps(w0, es);
    FloodingStops(After(w0, es), ds);
    RunKeeps(After(w0, es), ds);
    var w := After(After(w0, es), ds);
    if forall e | Delivery(e) :: !Enabled(w, e) {
      if !Quiet(w) { var e := NotQuietMoves(w); }
      forall path | Chain(w, path) ensures Agreed(w, path) { QuietAgrees(w, path); }
      QuietExplains(w);
    }
  }

  /** And a quiet network is always within reach. */
  lemma {:induction false} QuietWithinReach(w: World) returns (ds: seq<Event>)
    requires Inv(w)
    ensures Runs(w, ds) && Deliveries(ds) && Quiet(After(w, ds))
    decreases Weight(w)
  {
    hide Inv, Quiet, Next, Enabled, Weight;
    if Quiet(w) {
      ds := [];
    } else {
      var e := NotQuietMoves(w);
      DeliveryLightens(w, e);
      StepKeeps(w, e);
      var rest := QuietWithinReach(Next(w, e));
      ds := [e] + rest;
      assert ds[0] == e && ds[1..] == rest;
    }
  }

  // ---- History ----

  lemma AdoptLogs(w: World, p: PartyId, party: Party, m: Message, ls: set<LinkId>)
    requires p in w.parties
    ensures var w' := Adopt(w, p, party, m, ls);
            w'.parties.Keys == w.parties.Keys && forall q | q in w.log :: q in w'.log && w.log[q] <= w'.log[q]
  {}

  lemma DeliveredLogs(w: World, pk: Packet)
    requires pk.to in w.parties
    ensures var w' := Delivered(w, pk);
            w'.parties.Keys == w.parties.Keys && forall q | q in w.log :: q in w'.log && w.log[q] <= w'.log[q]
  {
    hide Adopt, Check, Relay.Accept;
    if w.parties[pk.to].Hub? {
      var (a', out) := Relay.Accept(w.parties[pk.to].acct, pk.link, pk.msg);
      if out.Some? { AdoptLogs(w, pk.to, Hub(a'), pk.msg, out.value); }
    }
  }

  lemma FinishedLogs(w: World, h: Handling)
    requires h.at in w.parties && w.parties[h.at].Node?
    ensures var w' := Finished(w, h);
            w'.parties.Keys == w.parties.Keys && forall q | q in w.log :: q in w'.log && w.log[q] <= w'.log[q]
  {
    hide Adopt, Commit, OpenClip, ContentFrom;
    if OpenClip(w.key, h.msg).Some? && ContentFrom(h.msg, OpenClip(w.key, h.msg).value).Some? {
      var c := ContentFrom(h.msg, OpenClip(w.key, h.msg).value).value;
      var (d', outcome) := Commit(w.parties[h.at].device, h.link, h.msg, c.Digest());
      if outcome.Adopted? { AdoptLogs(w, h.at, Node(d'), h.msg, outcome.forward); }
    }
  }

  lemma RegisteredLogs(w: World, p: PartyId, l: LinkId)
    requires p in w.parties
    ensures Registered(w, p, l).log == w.log && Registered(w, p, l).parties.Keys == w.parties.Keys
  {}

  /** No step adds or removes a party, and a party's history only grows. */
  lemma HistoryGrows(w: World, e: Event)
    requires Enabled(w, e)
    ensures var w' := Next(w, e);
            w'.parties.Keys == w.parties.Keys && forall q | q in w.log :: q in w'.log && w.log[q] <= w'.log[q]
  {
    hide Adopt, Delivered, Finished, Registered, Originate, WithLink, WithoutLink, Publish;
    match e
    case Connect(l, a, b) =>
    case Register(p, l) => RegisteredLogs(w, p, l);
    case Break(l) =>
    case Unregister(p, l) =>
    case Deliver(pk) => DeliveredLogs(w.(flight := w.flight - multiset{pk}), pk);
    case Finish(h) => FinishedLogs(w.(pending := w.pending - multiset{h}), h);
    case Copy(p, c, now, id, me, name) =>
    case Publishing(s) =>
      var (d, ls) := Publish(w.parties[s.at].device, s.msg);
      AdoptLogs(w.(staged := w.staged - multiset{s}), s.at, Node(d), s.msg, ls);
    case SetPaused(p, b) =>
  }

  lemma {:induction false} PartiesStay(w: World, es: seq<Event>)
    requires Runs(w, es)
    ensures After(w, es).parties.Keys == w.parties.Keys
    ensures forall q | q in w.log :: q in After(w, es).log && w.log[q] <= After(w, es).log[q]
    decreases |es|
  {
    hide Next, Enabled;
    if es != [] {
      HistoryGrows(w, es[0]);
      PartiesStay(Next(w, es[0]), es[1..]);
    }
  }

  // ---- The two sections of LocalCopy ----

  /** A copy stamped against a clip that is still current when it is stored is always
      stored calmly, short of the last millisecond of the 64-bit clock. */
  lemma UndisturbedCopyIsCalm(w: World, e: Event, m: Message, w': World)
    requires Enabled(w, e) && e.Copy? && Staged(e.p, m) in Next(w, e).staged && Staged(e.p, m) !in w.staged
    requires e.p in w'.parties && CurAt(w', e.p) == CurAt(w, e.p)
    requires CurAt(w, e.p).Some? ==> -TWO_63 <= CurAt(w, e.p).value.time < MAX_INT64
    ensures Calm(w', Publishing(Staged(e.p, m)))
  {
    OriginateIsGenuine(w.parties[e.p].device, e.c, e.now, e.id, e.me, e.name, w.key);
    if CurAt(w, e.p).Some? { StampWins(e.now, CurAt(w, e.p).value, m); }
  }
}
