/** Which connections the hub keeps when devices come back, and to whom it passes files
    (internal/server/server.go, sync and route). */
module HubDevices {
  import opened Basics
  import opened Wire
  import opened Relay
  import opened HubState
  import opened HubFiles

  // ---- A device comes back ----

  /** The cancelled connections leave, in some order. */
  function LeaveEach(h: Hub, cs: seq<ConnId>): Hub {
    if cs == [] then h else Leave(LeaveEach(h, cs[..|cs| - 1]), cs[|cs| - 1])
  }

  lemma JoinRegisters(h: Hub, c: ConnId, w: Who)
    requires Filed(h) && c !in h.who
    ensures var h' := Join(h, c, w);
            && Filed(h') && h'.who == h.who[c := w] && h'.inflight == h.inflight
            && forall x :: Registered(h', x) <==> x == c || Registered(h, x)
  {}

  lemma {:induction false} EachLeaves(h: Hub, cs: seq<ConnId>)
    requires Filed(h)
    ensures var h' := LeaveEach(h, cs);
            && Filed(h') && h'.who == h.who
            && (forall x :: Registered(h', x) <==> Registered(h, x) && x !in cs)
            && (forall id :: id in h'.inflight <==> id in h.inflight && h.inflight[id].from !in cs && h.inflight[id].to !in cs)
            && (forall id | id in h'.inflight :: h'.inflight[id] == h.inflight[id])
    decreases |cs|
  {
    if cs != [] {
      var rest, c := cs[..|cs| - 1], cs[|cs| - 1];
      EachLeaves(h, rest);
      assert forall x :: x in cs <==> x in rest || x == c;
      OneLeaves(LeaveEach(h, rest), c);
      hide Leave, Registered, Filed;
    }
  }

  lemma OneLeaves(h: Hub, c: ConnId)
    requires Filed(h)
    ensures var h' := Leave(h, c);
            && Filed(h') && h'.who == h.who
            && (forall x :: Registered(h', x) <==> Registered(h, x) && x != c)
            && (forall id :: id in h'.inflight <==> id in h.inflight && h.inflight[id].from != c && h.inflight[id].to != c)
            && (forall id | id in h'.inflight :: h'.inflight[id] == h.inflight[id])
  {}

  /** When a device connects and the connections the hub cancels for it have left, the new
      connection is the only one of that device; every connection of any other device or
      user is still there, and so is every transfer between such connections. */
  lemma ReconnectReplacesOnlyItself(h: Hub, c: ConnId, w: Who, cs: seq<ConnId>)
    requires Filed(h) && c !in h.who && forall x :: x in cs <==> x in Stale(h, w)
    ensures var h' := LeaveEach(Join(h, c, w), cs);
            && Registered(h', c) && h'.who[c] == w
            && (forall x | Registered(h', x) && x != c :: Registered(h, x) && h'.who[x] == h.who[x] != w)
            && (forall x | Registered(h, x) && h.who[x] != w :: Registered(h', x) && h'.who[x] == h.who[x])
            && (forall id | id in h.inflight && h.inflight[id].from in h.who && h.inflight[id].to in h.who
                            && h.who[h.inflight[id].from] != w && h.who[h.inflight[id].to] != w ::
                  id in h'.inflight && h'.inflight[id] == h.inflight[id])
  {
    JoinRegisters(h, c, w);
    EachLeaves(Join(h, c, w), cs);
    StaleIsOwn(h, w);
    hide Join, LeaveEach, Stale, Filed;
    assert c !in cs;
  }

  /** Cancelled are exactly the registered connections of that device of that user. */
  lemma StaleIsOwn(h: Hub, w: Who)
    requires Filed(h)
    ensures forall x :: x in Stale(h, w) <==> Registered(h, x) && h.who[x] == w
  {}

  // ---- Over whole runs ----

  /** The connections cancelled and still there. */
  function Doomed(w: World, doomed: set<ConnId>, e: Event): set<ConnId> {
    match e
    case Connects(c, who) => doomed + Stale(w.hub, who)
    case Disconnects(c) => doomed - {c}
    case _ => doomed
  }

  function DoomedAfter(w: World, doomed: set<ConnId>, es: seq<Event>): set<ConnId>
    decreases |es|
  {
    if es == [] then doomed else DoomedAfter(Next(w, es[0]), Doomed(w, doomed, es[0]), es[1..])
  }

  /** Two registered connections of one device are never both left alone by the hub. */
  ghost predicate OneEach(w: World, doomed: set<ConnId>) {
    forall x, y | Registered(w.hub, x) && Registered(w.hub, y) && x !in doomed && y !in doomed && w.hub.who[x] == w.hub.who[y] :: x == y
  }

  /** Only a later connection of the same device gets one cancelled. */
  ghost predicate Superseded(w: World, doomed: set<ConnId>) {
    forall x | x in doomed :: x in w.hub.who && exists y :: y != x && SameDevice(w.hub, x, y)
  }

  /** What is passed on goes to the device it names, in the sender's own account. */
  predicate Addressed(h: Hub, o: Outgoing) {
    o.from in h.who && o.to in h.who && o.to != o.from && h.who[o.to] == Who(h.who[o.from].user, o.msg.to)
  }

  ghost predicate AllOk(w: World, doomed: set<ConnId>) {
    Base(w) && OneEach(w, doomed) && Superseded(w, doomed) && forall o | o in w.out :: Addressed(w.hub, o)
  }

  lemma StepBase(w: World, e: Event)
    requires Base(w) && Enabled(w, e)
    ensures Base(Next(w, e))
  {
    match e
    case Connects(c, who) => ConnectExact(w, c, who);
    case Sends(o, ok) => SendExact(w, o, ok);
    case Disconnects(c) => DisconnectExact(w, c);
    case Routes(from, m, target) => RouteBase(w, from, m, target);
  }

  /** Who is registered, and who ever was, after a step. */
  lemma StepRegisters(w: World, e: Event)
    requires Base(w) && Enabled(w, e)
    ensures var w' := Next(w, e);
            && (forall x :: Registered(w'.hub, x) <==> if e.Connects? && x == e.c then true else Registered(w.hub, x) && !(e.Disconnects? && x == e.c))
            && (forall x | x in w.hub.who :: x in w'.hub.who && w'.hub.who[x] == w.hub.who[x])
            && (e.Connects? ==> e.c !in w.hub.who && e.c in w'.hub.who && w'.hub.who[e.c] == e.w)
            && (!e.Connects? ==> w'.hub.who == w.hub.who)
  {
    match e
    case Connects(c, who) => JoinRegisters(w.hub, c, who);
    case Sends(o, ok) =>
    case Disconnects(c) => OneLeaves(w.hub, c);
    case Routes(from, m, target) => RouteBase(w, from, m, target);
  }

  /** A target is a registered connection of the device the message names, in the sender's
      account and not the sender's own; and there is one whenever there can be. */
  lemma RoutedToAddressee(h: Hub, from: ConnId, m: Message, target: Option<ConnId>)
    requires Filed(h) && Registered(h, from) && Chosen(h, from, m, target)
    ensures target.Some? <==> exists c :: c != from && Registered(h, c) && h.who[c] == Who(h.who[from].user, m.to)
    ensures target.Some? ==> target.value != from && Registered(h, target.value) && h.who[target.value] == Who(h.who[from].user, m.to)
  {
    assert forall c :: c in Targets(h, from, m.to) <==> c != from && Registered(h, c) && h.who[c] == Who(h.who[from].user, m.to);
  }

  lemma StepAddresses(w: World, e: Event)
    requires Base(w) && Enabled(w, e) && forall o | o in w.out :: Addressed(w.hub, o)
    ensures forall o | o in Next(w, e).out :: Addressed(Next(w, e).hub, o)
  {
    var w' := Next(w, e);
    StepRegisters(w, e);
    if e.Routes? && e.target.Some? {
      RoutedToAddressee(w.hub, e.from, e.m, e.target);
      hide Base, Registered, Chosen;
      assert forall o | o in w'.out :: o in w.out || o == Outgoing(e.from, e.target.value, e.m);
    } else {
      hide Base, Registered, Chosen;
      assert forall o | o in w'.out :: o in w.out;
    }
  }

  lemma StepOk(w: World, doomed: set<ConnId>, e: Event)
    requires AllOk(w, doomed) && Enabled(w, e)
    ensures AllOk(Next(w, e), Doomed(w, doomed, e))
  {
    StepBase(w, e);
    StepRegisters(w, e);
    StepAddresses(w, e);
    if e.Connects? { StaleIsOwn(w.hub, e.w); }
    StepDooms(w, doomed, e);
    hide Base, Addressed, OneEach, Superseded;
  }

  lemma StepDooms(w: World, doomed: set<ConnId>, e: Event)
    requires Base(w) && OneEach(w, doomed) && Superseded(w, doomed) && Enabled(w, e)
    ensures OneEach(Next(w, e), Doomed(w, doomed, e)) && Superseded(Next(w, e), Doomed(w, doomed, e))
  {
    var w' := Next(w, e);
    StepRegisters(w, e);
    if e.Connects? { StaleIsOwn(w.hub, e.w); }
    assert forall x | Registered(w.hub, x) :: x in w.hub.who;
    hide Next, Base, Registered, Stale, Enabled;
    forall x | x in Doomed(w, doomed, e) ensures x in w'.hub.who && exists y :: y != x && SameDevice(w'.hub, x, y) {
      if x in doomed {
        var y :| y != x && SameDevice(w.hub, x, y);
        assert SameDevice(w'.hub, x, y);
      } else {
        assert SameDevice(w'.hub, x, e.c);
      }
    }
  }

  lemma {:induction false} RunOk(w: World, doomed: set<ConnId>, es: seq<Event>)
    requires AllOk(w, doomed) && Runs(w, es)
    ensures AllOk(After(w, es), DoomedAfter(w, doomed, es))
    decreases |es|
  {
    hide AllOk, Next, Enabled, Doomed;
    if es != [] {
      StepOk(w, doomed, es[0]);
      RunOk(Next(w, es[0]), Doomed(w, doomed, es[0]), es[1..]);
    }
  }

  /** In every run a device has at most one connection that the hub has not cancelled, a
      connection is cancelled only because the same device of the same user has connected
      again, and every file message passed on goes to the device it names in the sender's
      own account. */
  lemma OneConnectionPerDevice(es: seq<Event>)
    requires Runs(EMPTY, es)
    ensures var w, doomed := After(EMPTY, es), DoomedAfter(EMPTY, {}, es);
            && (forall x, y | Registered(w.hub, x) && Registered(w.hub, y) && x !in doomed && y !in doomed
                              && w.hub.who[x] == w.hub.who[y] :: x == y)
            && (forall x | x in doomed :: x in w.hub.who && exists y :: y != x && SameDevice(w.hub, x, y))
            && (forall o | o in w.out :: o.to != o.from && o.from in w.hub.who && o.to in w.hub.who
                                         && w.hub.who[o.to] == Who(w.hub.who[o.from].user, o.msg.to))
  {
    hide Base, Runs, After, DoomedAfter;
    assert AllOk(EMPTY, {}) by { EmptyIsBase(); }
    RunOk(EMPTY, {}, es);
  }

  lemma EmptyIsBase()
    ensures Base(EMPTY) && forall x :: !Registered(EMPTY.hub, x)
  {}
}
