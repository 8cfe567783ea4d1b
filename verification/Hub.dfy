/** The server hub: who is connected, each account's newest clip, and the file transfers
    passed on but not yet acknowledged (internal/server/server.go). */
module HubState {
  import opened Basics
  import opened Wire
  import opened Relay

  datatype Who = Who(user: string, device: string)

  datatype Transfer = Transfer(from: ConnId, to: ConnId, id: string, origin: string)

  datatype Hub = Hub(accounts: map<string, Account>, who: map<ConnId, Who>, inflight: map<string, Transfer>)

  const NOT_CONNECTED := "that device isn't connected to the server right now"
  const LOST := "lost the connection to that device"

  /** What failTransfer sends. */
  function FailureAck(id: string, origin: string, reason: string): Message {
    Message(TYPE_FILE_ACK, id, "", "", 0, "", "", origin, 0, reason, NoBody)
  }

  /** acct: an account's entry, made on first use. */
  function Acct(h: Hub, user: string): Account {
    if user in h.accounts then h.accounts[user] else Account({}, None)
  }

  predicate Registered(h: Hub, c: ConnId) {
    c in h.who && h.who[c].user in h.accounts && c in h.accounts[h.who[c].user].conns
  }

  /** Connections are filed under the account they belong to. */
  ghost predicate Filed(h: Hub) {
    forall u, c | u in h.accounts && c in h.accounts[u].conns :: c in h.who && h.who[c].user == u
  }

  function Join(h: Hub, c: ConnId, w: Who): Hub {
    var a := Acct(h, w.user);
    h.(accounts := h.accounts[w.user := a.(conns := a.conns + {c})], who := h.who[c := w])
  }

  /** The stale connections of a device that has just reconnected. */
  function Stale(h: Hub, w: Who): set<ConnId> {
    set c | c in Acct(h, w.user).conns && c in h.who && h.who[c].device == w.device
  }

  /** The connections a file message from `from` may go to. */
  function Targets(h: Hub, from: ConnId, device: string): set<ConnId> {
    if from !in h.who || h.who[from].user !in h.accounts then {}
    else set c | c in h.accounts[h.who[from].user].conns && c in h.who && h.who[c].device == device && c != from
  }

  predicate Chosen(h: Hub, from: ConnId, m: Message, target: Option<ConnId>) {
    if target.None? then Targets(h, from, m.to) == {} else target.value in Targets(h, from, m.to)
  }

  /** The lock section of route. */
  function Track(h: Hub, from: ConnId, m: Message, target: Option<ConnId>): Hub {
    if m.mtype == TYPE_FILE_ACK then h.(inflight := h.inflight - {m.id})
    else if m.mtype == TYPE_FILE_START && target.Some? then
      h.(inflight := h.inflight[m.id := Transfer(from, target.value, m.id, m.origin)])
    else h
  }

  function Orphans(h: Hub, c: ConnId): set<string> {
    set id | id in h.inflight && h.inflight[id].to == c
  }

  function Leave(h: Hub, c: ConnId): Hub {
    var h1 := if c in h.who && h.who[c].user in h.accounts then
                var u := h.who[c].user;
                h.(accounts := h.accounts[u := h.accounts[u].(conns := h.accounts[u].conns - {c})])
              else h;
    h1.(inflight := h.inflight - set id | id in h.inflight && (h.inflight[id].to == c || h.inflight[id].from == c))
  }

  /** The hub as it runs: maps changed in place, one lock section per method. */
  class Server {
    var accounts: map<string, Account>
    var who: map<ConnId, Who>
    var inflight: map<string, Transfer>

    constructor ()
      ensures State() == Hub(map[], map[], map[])
    {
      accounts, who, inflight := map[], map[], map[];
    }

    function State(): Hub reads this {
      Hub(accounts, who, inflight)
    }

    /** The start of sync: the connection joins its account; the caller cancels `stale`
        and sends `cur`. */
    method Connect(c: ConnId, w: Who) returns (stale: set<ConnId>, cur: Option<Message>)
      modifies this
      ensures State() == Join(old(State()), c, w)
      ensures stale == Stale(old(State()), w) && cur == Acct(old(State()), w.user).current
    {
      var a := if w.user in accounts then accounts[w.user] else Account({}, None);
      stale := {};
      var left := a.conns;
      while left != {}
        invariant left <= a.conns
        invariant stale == set x | x in a.conns - left && x in who && who[x].device == w.device
        decreases left
      {
        var x :| x in left;
        left := left - {x};
        if x in who && who[x].device == w.device {
          stale := stale + {x};
        }
      }
      accounts := accounts[w.user := a.(conns := a.conns + {c})];
      who := who[c := w];
      cur := a.current;
    }

    /** One clip in readLoop: where it is passed on. */
    method ReadClip(c: ConnId, m: Message) returns (others: set<ConnId>)
      requires c in who
      modifies this`accounts
      ensures var (a, out) := Accept(Acct(old(State()), who[c].user), c, m);
              && State() == old(State()).(accounts := old(accounts)[who[c].user := a])
              && others == if out.Some? then out.value else {}
    {
      var a := if who[c].user in accounts then accounts[who[c].user] else Account({}, None);
      others := {};
      if !Newer(m, a.current) || (a.current.Some? && a.current.value.id == m.id) {
        accounts := accounts[who[c].user := a];
        return;
      }
      accounts := accounts[who[c].user := a.(current := Some(m))];
      var left := a.conns;
      while left != {}
        invariant left <= a.conns && others == (a.conns - left) - {c}
        decreases left
      {
        var o :| o in left;
        left := left - {o};
        if o != c {
          others := others + {o};
        }
      }
    }

    /** The lock section of route: pick the target, record the transfer or forget it. */
    method Route(from: ConnId, m: Message) returns (target: Option<ConnId>)
      modifies this`inflight
      ensures Chosen(old(State()), from, m, target) && State() == Track(old(State()), from, m, target)
    {
      target := None;
      if from in who && who[from].user in accounts {
        var left := accounts[who[from].user].conns;
        while left != {} && target.None?
          invariant left <= accounts[who[from].user].conns
          invariant target.Some? ==> target.value in Targets(State(), from, m.to)
          invariant target.None? ==> forall x | x in Targets(State(), from, m.to) :: x in left
          decreases left
        {
          var x :| x in left;
          left := left - {x};
          if x in who && who[x].device == m.to && x != from {
            target := Some(x);
          }
        }
      }
      if m.mtype == TYPE_FILE_ACK {
        inflight := inflight - {m.id};
      } else if m.mtype == TYPE_FILE_START && target.Some? {
        inflight := inflight[m.id := Transfer(from, target.value, m.id, m.origin)];
      }
    }

    /** The end of sync: the connection leaves, its transfers with it; the senders of the
        orphaned ones are to be told. */
    method Disconnect(c: ConnId) returns (orphaned: set<string>)
      modifies this`accounts, this`inflight
      ensures State() == Leave(old(State()), c) && orphaned == Orphans(old(State()), c)
    {
      if c in who && who[c].user in accounts {
        var a := accounts[who[c].user];
        accounts := accounts[who[c].user := a.(conns := a.conns - {c})];
      }
      ghost var before := inflight;
      orphaned := {};
      var gone: set<string> := {};
      var left := inflight.Keys;
      while left != {}
        invariant left <= before.Keys && inflight == before
        invariant orphaned == set id | id in before.Keys - left && before[id].to == c
        invariant gone == set id | id in before.Keys - left && (before[id].to == c || before[id].from == c)
        decreases left
      {
        var id :| id in left;
        left := left - {id};
        if inflight[id].to == c {
          orphaned := orphaned + {id};
        }
        if inflight[id].to == c || inflight[id].from == c {
          gone := gone + {id};
        }
      }
      assert gone == set id | id in before && (before[id].to == c || before[id].from == c);
      inflight := inflight - gone;
    }
  }
}

/** No sender is left waiting for a receiver the hub has lost. */
module HubFiles {
  import opened Basics
  import opened Wire
  import opened Relay
  import opened HubState

  /** A file message on its way from the lock section of route to its target. */
  datatype Outgoing = Outgoing(from: ConnId, to: ConnId, msg: Message)

  /** `started` records every transfer whose start was passed on, `acked` each ack routed
      with who sent it and to which connection it went, `failures` the failure acks sent,
      `gone` who has disconnected. */
  datatype World = World(hub: Hub, out: multiset<Outgoing>, started: set<Transfer>, acked: set<(string, ConnId, Option<ConnId>)>,
                         failures: set<(ConnId, Message)>, gone: set<ConnId>)

  datatype Event =
    | Connects(c: ConnId, w: Who)
    | Routes(from: ConnId, m: Message, target: Option<ConnId>)
    | Sends(o: Outgoing, ok: bool)
    | Disconnects(c: ConnId)

  predicate Enabled(w: World, e: Event) {
    match e
    case Connects(c, who) => c !in w.hub.who && c !in w.gone
    case Routes(from, m, target) => Registered(w.hub, from) && IsFile(m) && Chosen(w.hub, from, m, target)
    case Sends(o, ok) => o in w.out
    case Disconnects(c) => Registered(w.hub, c)
  }

  function Failures(h: Hub, c: ConnId): set<(ConnId, Message)> {
    set id | id in Orphans(h, c) :: (h.inflight[id].from, FailureAck(h.inflight[id].id, h.inflight[id].origin, LOST))
  }

  function Next(w: World, e: Event): World {
    match e
    case Connects(c, who) => w.(hub := Join(w.hub, c, who))
    case Routes(from, m, target) =>
      var w1 := w.(hub := Track(w.hub, from, m, target),
                   acked := if m.mtype == TYPE_FILE_ACK then w.acked + {(m.id, from, target)} else w.acked);
      if target.Some? then
        w1.(out := w.out + multiset{Outgoing(from, target.value, m)},
            started := if m.mtype == TYPE_FILE_START then w.started + {Transfer(from, target.value, m.id, m.origin)} else w.started)
      else if m.mtype == TYPE_FILE_ACK then w1
      else w1.(failures := w.failures + {(from, FailureAck(m.id, m.origin, NOT_CONNECTED))})
    case Sends(o, ok) =>
      var w1 := w.(out := w.out - multiset{o});
      if ok || o.msg.mtype == TYPE_FILE_ACK then w1
      else w1.(failures := w.failures + {(o.from, FailureAck(o.msg.id, o.msg.origin, LOST))})
    case Disconnects(c) =>
      w.(hub := Leave(w.hub, c), failures := w.failures + Failures(w.hub, c), gone := w.gone + {c})
  }

  predicate Runs(w: World, es: seq<Event>)
    decreases |es|
  {
    es == [] || (Enabled(w, es[0]) && Runs(Next(w, es[0]), es[1..]))
  }

  function After(w: World, es: seq<Event>): World
    decreases |es|
  {
    if es == [] then w else After(Next(w, es[0]), es[1..])
  }

  const EMPTY := World(Hub(map[], map[], map[]), multiset{}, {}, {}, {}, {})

  // ---- What a sender may count on ----

  predicate SameDevice(h: Hub, c: ConnId, d: ConnId) {
    c in h.who && d in h.who && h.who[c] == h.who[d]
  }

  /** An ack from `from` to `target` is the receiver's answer: it comes from the device
      the transfer went to and goes to the device that sent it. */
  predicate Answer(h: Hub, t: Transfer, from: ConnId, target: Option<ConnId>) {
    SameDevice(h, from, t.to) && target.Some? && SameDevice(h, target.value, t.from)
  }

  ghost predicate Answered(w: World, t: Transfer) {
    exists from, target :: (t.id, from, target) in w.acked && Answer(w.hub, t, from, target)
  }

  /** The sender of the transfer has been sent an ack that says why it failed. */
  ghost predicate ToldFailure(w: World, t: Transfer) {
    exists m :: (t.from, m) in w.failures && m.mtype == TYPE_FILE_ACK && m.id == t.id && m.to == t.origin && m.error != ""
  }

  /** It is over for the sender: answered by the receiver, told of a failure, or gone. */
  ghost predicate Over(w: World, t: Transfer) {
    Answered(w, t) || ToldFailure(w, t) || t.from in w.gone
  }

  /** Still being watched: the hub will notice either end leave. */
  predicate Watched(w: World, t: Transfer) {
    && t.id in w.hub.inflight && w.hub.inflight[t.id] == t && t.from != t.to
    && Registered(w.hub, t.from) && Registered(w.hub, t.to) && w.hub.who[t.from].user == w.hub.who[t.to].user
  }

  ghost predicate Accounted(w: World, t: Transfer) {
    Over(w, t) || Watched(w, t)
  }

  ghost predicate AllAccounted(w: World) {
    forall t | t in w.started :: Accounted(w, t)
  }

  /** What every step keeps, whatever clients do. */
  ghost predicate Base(w: World) {
    && Filed(w.hub)
    && (forall id | id in w.hub.inflight :: w.hub.inflight[id].id == id && w.hub.inflight[id] in w.started && Watched(w, w.hub.inflight[id]))
    && (forall c | c in w.hub.who && !Registered(w.hub, c) :: c in w.gone)
    && (forall c | c in w.gone :: !Registered(w.hub, c))
  }

  /** The step drops the watch over a transfer that is not over: either another start
      takes its id, or an ack with its id that is not the receiver's answer. */
  ghost predicate Strands(w: World, e: Event) {
    e.Routes? && e.m.id in w.hub.inflight
    && var t := w.hub.inflight[e.m.id];
       && !Over(w, t)
       && ((e.m.mtype == TYPE_FILE_START && e.target.Some? && Transfer(e.from, e.target.value, e.m.id, e.m.origin) != t)
           || (e.m.mtype == TYPE_FILE_ACK && !Answer(w.hub, t, e.from, e.target)))
  }

  lemma ReasonsSay()
    ensures NOT_CONNECTED != "" && LOST != "" && TYPE_FILE_START != TYPE_FILE_ACK
  {
    assert |NOT_CONNECTED| > 0 && |LOST| > 0;
    assert |TYPE_FILE_START| != |TYPE_FILE_ACK|;
  }

  lemma OverStays(w: World, w': World, t: Transfer)
    requires w.acked <= w'.acked && w.failures <= w'.failures && w.gone <= w'.gone
    requires forall c | c in w.hub.who :: c in w'.hub.who && w'.hub.who[c] == w.hub.who[c]
    ensures Over(w, t) ==> Over(w', t)
  {
    if Answered(w, t) {
      var from, target :| (t.id, from, target) in w.acked && Answer(w.hub, t, from, target);
      assert (t.id, from, target) in w'.acked && Answer(w'.hub, t, from, target);
    } else if ToldFailure(w, t) {
      var m :| (t.from, m) in w.failures && m.mtype == TYPE_FILE_ACK && m.id == t.id && m.to == t.origin && m.error != "";
      assert (t.from, m) in w'.failures;
    }
  }

  lemma NothingTakenBack(w: World, e: Event)
    requires Enabled(w, e)
    ensures var w' := Next(w, e);
            && w.acked <= w'.acked && w.failures <= w'.failures && w.gone <= w'.gone && w.started <= w'.started
            && forall c | c in w.hub.who :: c in w'.hub.who && w'.hub.who[c] == w.hub.who[c]
  {}

  // ---- Every step ----

  lemma ConnectExact(w: World, c: ConnId, who: Who)
    requires Base(w) && Enabled(w, Connects(c, who))
    ensures Base(Next(w, Connects(c, who)))
    ensures AllAccounted(w) ==> AllAccounted(Next(w, Connects(c, who)))
  {
    var w' := Next(w, Connects(c, who));
    assert forall x | x != c :: Registered(w'.hub, x) == Registered(w.hub, x);
    assert forall t | Watched(w, t) :: Watched(w', t);
    NothingTakenBack(w, Connects(c, who));
    forall t | t in w'.started && Accounted(w, t) ensures Accounted(w', t) { OverStays(w, w', t); }
  }

  lemma SendExact(w: World, o: Outgoing, ok: bool)
    requires Base(w) && Enabled(w, Sends(o, ok))
    ensures Base(Next(w, Sends(o, ok)))
    ensures AllAccounted(w) ==> AllAccounted(Next(w, Sends(o, ok)))
  {
    var w' := Next(w, Sends(o, ok));
    NothingTakenBack(w, Sends(o, ok));
    assert forall t | Watched(w, t) :: Watched(w', t);
    forall t | t in w'.started && Accounted(w, t) ensures Accounted(w', t) { OverStays(w, w', t); }
  }

  lemma LeaveUnregisters(h: Hub, c: ConnId)
    requires Filed(h) && Registered(h, c)
    ensures Filed(Leave(h, c)) && forall x :: Registered(Leave(h, c), x) <==> Registered(h, x) && x != c
  {}

  lemma LeaveWatches(w: World, c: ConnId)
    requires Base(w) && Enabled(w, Disconnects(c))
    ensures var w' := Next(w, Disconnects(c));
            && Base(w') && forall t | Watched(w, t) && t.from != c && t.to != c :: Watched(w', t)
  {
    LeaveUnregisters(w.hub, c);
    hide Registered;
  }

  /** When the receiving device goes, every transfer still watched towards it fails at once
      at its sender. */
  lemma LostReceiverIsReported(w: World, c: ConnId, t: Transfer)
    requires Enabled(w, Disconnects(c)) && Watched(w, t) && t.to == c
    ensures ToldFailure(Next(w, Disconnects(c)), t)
  {
    ReasonsSay();
    assert t.id in Orphans(w.hub, c);
    assert (t.from, FailureAck(t.id, t.origin, LOST)) in Next(w, Disconnects(c)).failures;
  }

  lemma DisconnectExact(w: World, c: ConnId)
    requires Base(w) && Enabled(w, Disconnects(c))
    ensures Base(Next(w, Disconnects(c)))
    ensures AllAccounted(w) ==> AllAccounted(Next(w, Disconnects(c)))
  {
    var w' := Next(w, Disconnects(c));
    LeaveWatches(w, c);
    NothingTakenBack(w, Disconnects(c));
    assert c in w'.gone;
    forall t | t in w'.started && Accounted(w, t) ensures Accounted(w', t) {
      hide Next, Watched, Over, Base, Enabled;
      OverStays(w, w', t);
      if Watched(w, t) { DisconnectAccounts(w, c, t); }
    }
  }

  lemma DisconnectAccounts(w: World, c: ConnId, t: Transfer)
    requires Base(w) && Enabled(w, Disconnects(c)) && Watched(w, t)
    ensures Accounted(Next(w, Disconnects(c)), t)
  {
    LeaveWatches(w, c);
    hide Watched, Base;
    if t.to == c { LostReceiverIsReported(w, c, t); }
  }

  lemma RouteBase(w: World, from: ConnId, m: Message, target: Option<ConnId>)
    requires Base(w) && Enabled(w, Routes(from, m, target))
    ensures var w' := Next(w, Routes(from, m, target));
            && Base(w') && (forall x :: Registered(w'.hub, x) == Registered(w.hub, x)) && w'.hub.who == w.hub.who
  {
    ReasonsSay();
    var w' := Next(w, Routes(from, m, target));
    assert forall x :: Registered(w'.hub, x) == Registered(w.hub, x);
    forall id | id in w'.hub.inflight
      ensures w'.hub.inflight[id].id == id && w'.hub.inflight[id] in w'.started && Watched(w', w'.hub.inflight[id])
    {}
  }

  /** What routing does to the watch over each transfer. */
  lemma RouteWatches(w: World, from: ConnId, m: Message, target: Option<ConnId>, t: Transfer)
    requires Base(w) && Enabled(w, Routes(from, m, target))
    ensures var w' := Next(w, Routes(from, m, target));
            && (Watched(w', t) <==>
                if m.mtype == TYPE_FILE_ACK then Watched(w, t) && t.id != m.id
                else if m.mtype == TYPE_FILE_START && target.Some? && t.id == m.id then t == Transfer(from, target.value, m.id, m.origin)
                else Watched(w, t))
  {
    RouteBase(w, from, m, target);
    ReasonsSay();
  }

  lemma RouteAnswers(w: World, from: ConnId, m: Message, target: Option<ConnId>, t: Transfer)
    requires Enabled(w, Routes(from, m, target)) && !Over(w, t) && Registered(w.hub, t.from)
    requires target.Some? || m.mtype == TYPE_FILE_ACK
    ensures Over(Next(w, Routes(from, m, target)), t) <==> m.mtype == TYPE_FILE_ACK && m.id == t.id && Answer(w.hub, t, from, target)
  {
    var w' := Next(w, Routes(from, m, target));
    assert w'.hub.who == w.hub.who && w'.failures == w.failures && w'.gone == w.gone;
    if m.mtype == TYPE_FILE_ACK { assert (m.id, from, target) in w'.acked; }
    forall f, g | (t.id, f, g) in w'.acked && Answer(w.hub, t, f, g) ensures (t.id, f, g) == (m.id, from, target) && m.mtype == TYPE_FILE_ACK {
      assert (t.id, f, g) !in w.acked;
    }
  }

  lemma RouteKeepsUnlessStranding(w: World, e: Event)
    requires Base(w) && Enabled(w, e) && e.Routes? && AllAccounted(w) && !Strands(w, e)
    ensures AllAccounted(Next(w, e))
  {
    var w' := Next(w, e);
    NothingTakenBack(w, e);
    var new' := Transfer(e.from, if e.target.Some? then e.target.value else 0, e.m.id, e.m.origin);
    assert forall t | t in w'.started :: t in w.started || (t == new' && e.target.Some? && e.m.mtype == TYPE_FILE_START);
    forall t | t in w'.started ensures Accounted(w', t) {
      RouteWatches(w, e.from, e.m, e.target, t);
      OverStays(w, w', t);
      ReasonsSay();
      if t in w.started {
        assert Accounted(w, t);
        if !Over(w, t) && t.id == e.m.id && e.m.mtype == TYPE_FILE_ACK {
          assert w.hub.inflight[e.m.id] == t;
          assert (t.id, e.from, e.target) in w'.acked;
          assert Answered(w', t);
        }
      }
    }
  }

  lemma StrandingBreaks(w: World, e: Event)
    requires Base(w) && Enabled(w, e) && Strands(w, e)
    ensures var t := w.hub.inflight[e.m.id]; t in Next(w, e).started && !Accounted(Next(w, e), t)
  {
    var t := w.hub.inflight[e.m.id];
    assert Watched(w, t) && t in w.started;
    NothingTakenBack(w, e);
    RouteWatches(w, e.from, e.m, e.target, t);
    RouteAnswers(w, e.from, e.m, e.target, t);
    ReasonsSay();
    hide Over;
  }

  /** From a state in which every sender is accounted for, a step leaves it so if and only
      if it strands nobody. */
  lemma StepExact(w: World, e: Event)
    requires Base(w) && Enabled(w, e) && AllAccounted(w)
    ensures Base(Next(w, e))
    ensures AllAccounted(Next(w, e)) <==> !Strands(w, e)
  {
    hide Base, Next, Enabled, AllAccounted;
    match e
    case Connects(c, who) => ConnectExact(w, c, who);
    case Sends(o, ok) => SendExact(w, o, ok);
    case Disconnects(c) => DisconnectExact(w, c);
    case Routes(from, m, target) =>
      RouteBase(w, from, m, target);
      if Strands(w, e) {
        StrandingBreaks(w, e);
        SomeoneUnaccounted(Next(w, e), w.hub.inflight[m.id]);
      } else {
        RouteKeepsUnlessStranding(w, e);
      }
  }

  lemma SomeoneUnaccounted(w: World, t: Transfer)
    requires t in w.started && !Accounted(w, t)
    ensures !AllAccounted(w)
  {}

  // ---- Every run ----

  /** No step strands anyone. */
  ghost predicate Careful(w: World, es: seq<Event>)
    decreases |es|
  {
    es == [] || (!Strands(w, es[0]) && Careful(Next(w, es[0]), es[1..]))
  }

  ghost predicate AlwaysAccounted(w: World, es: seq<Event>)
    decreases |es|
  {
    AllAccounted(w) && (es == [] || AlwaysAccounted(Next(w, es[0]), es[1..]))
  }

  lemma {:induction false} RunExact(w: World, es: seq<Event>)
    requires Base(w) && AllAccounted(w) && Runs(w, es)
    ensures AlwaysAccounted(w, es) <==> Careful(w, es)
    ensures Careful(w, es) ==> Base(After(w, es)) && AllAccounted(After(w, es))
    decreases |es|
  {
    hide Base, AllAccounted, Next, Enabled, Strands;
    if es != [] {
      StepExact(w, es[0]);
      if !Strands(w, es[0]) { RunExact(Next(w, es[0]), es[1..]); }
    }
  }

  /** In every run each transfer whose start the hub has passed on stays accounted for: it
      has been answered by the receiving device, its sender has been told why it failed or
      has itself gone, or the hub is still watching both ends. That is so throughout if and
      only if no start takes the id of another open transfer and no ack with the id of an
      open transfer comes from or goes to any but its two ends. */
  lemma NoSenderLeftWaiting(es: seq<Event>)
    requires Runs(EMPTY, es)
    ensures AlwaysAccounted(EMPTY, es) <==> Careful(EMPTY, es)
    ensures Careful(EMPTY, es) ==> AllAccounted(After(EMPTY, es))
  {
    RunExact(EMPTY, es);
  }

  /** A client as VoidBridge writes it: every start has an id of its own, and only the
      device a transfer went to acks it, to the device it came from. */
  ghost predicate WellBehaved(w: World, e: Event) {
    e.Routes? ==>
      && (e.m.mtype == TYPE_FILE_START ==> forall t | t in w.started :: t.id != e.m.id)
      && (e.m.mtype == TYPE_FILE_ACK ==> forall t | t in w.started && t.id == e.m.id ::
            SameDevice(w.hub, e.from, t.to) && e.from != t.from && t.from in w.hub.who && e.m.to == w.hub.who[t.from].device)
  }

  /** Such clients strand nobody. */
  lemma WellBehavedStrandsNobody(w: World, e: Event)
    requires Base(w) && Enabled(w, e) && WellBehaved(w, e)
    ensures !Strands(w, e)
  {
    if e.Routes? && e.m.id in w.hub.inflight {
      ReasonsSay();
      var t := w.hub.inflight[e.m.id];
      assert Watched(w, t) && t in w.started;
      if e.m.mtype == TYPE_FILE_ACK {
        assert t.from in Targets(w.hub, e.from, e.m.to);
        hide Over;
      }
    }
  }

  ghost predicate WellBehavedRun(w: World, es: seq<Event>)
    decreases |es|
  {
    es == [] || (WellBehaved(w, es[0]) && WellBehavedRun(Next(w, es[0]), es[1..]))
  }

  lemma {:induction false} WellBehavedIsCareful(w: World, es: seq<Event>)
    requires Base(w) && AllAccounted(w) && Runs(w, es) && WellBehavedRun(w, es)
    ensures Careful(w, es)
    decreases |es|
  {
    hide Base, AllAccounted, Next, Enabled, Strands, WellBehaved;
    if es != [] {
      WellBehavedStrandsNobody(w, es[0]);
      StepExact(w, es[0]);
      WellBehavedIsCareful(Next(w, es[0]), es[1..]);
    }
  }

  /** So among such clients no sender is ever left waiting. */
  lemma WellBehavedClientsAreServed(es: seq<Event>)
    requires Runs(EMPTY, es) && WellBehavedRun(EMPTY, es)
    ensures AlwaysAccounted(EMPTY, es)
  {
    WellBehavedIsCareful(EMPTY, es);
    NoSenderLeftWaiting(es);
  }

  // ---- Two runs in which a sender is stranded ----

  const START := Message(TYPE_FILE_START, "x", "o", "", 0, "", "", "d2", 0, "", NoBody)
  const STRAY := Message(TYPE_FILE_ACK, "x", "d3", "", 0, "", "", "nobody", 0, "", NoBody)
  const WHO := map[1 := Who("u", "d1"), 2 := Who("u", "d2"), 3 := Who("u", "d3")]

  /** Devices d1, d2 and d3 of one account are connected. */
  const CONNECTED := EMPTY.(hub := Hub(map["u" := Account({1, 2, 3}, None)], WHO, map[]))
  const CONNECTS := [Connects(1, Who("u", "d1")), Connects(2, Who("u", "d2")), Connects(3, Who("u", "d3"))]

  lemma ThreeConnect()
    ensures Runs(EMPTY, CONNECTS) && After(EMPTY, CONNECTS) == CONNECTED
  {
    var w1 := Next(EMPTY, Connects(1, Who("u", "d1")));
    var w2 := Next(w1, Connects(2, Who("u", "d2")));
    var w3 := Next(w2, Connects(3, Who("u", "d3")));
    var nobody: set<ConnId> := {};
    assert nobody + {1} == {1} && {1} + {2} == {1, 2} && {1, 2} + {3} == {1, 2, 3};
    assert w1.hub.accounts == map["u" := Account({1}, None)];
    assert w2.hub.accounts == map["u" := Account({1, 2}, None)];
    assert w3.hub == CONNECTED.hub;
    assert CONNECTS[1..][1..][1..] == [];
  }

  lemma NamesDiffer()
    ensures "d1" != "d2" && "d3" != "d2" && "d1" != "nobody" && "d2" != "nobody" && "d3" != "nobody"
  {
    assert "d1"[1] == '1' && "d2"[1] == '2' && "d3"[1] == '3';
    assert |"nobody"| != |"d1"| && |"nobody"| != |"d2"| && |"nobody"| != |"d3"|;
  }

  lemma TwoIsTarget(from: ConnId)
    requires from == 1 || from == 3
    ensures Targets(CONNECTED.hub, from, "d2") == {2} && Targets(CONNECTED.hub, from, "nobody") == {}
  {
    NamesDiffer();
  }

  function Passing(from: ConnId): Event {
    Routes(from, START, Some(2))
  }

  function Passed(from: ConnId): Transfer {
    Transfer(from, 2, "x", "o")
  }

  const FIRST := CONNECTED.(hub := CONNECTED.hub.(inflight := map["x" := Passed(1)]),
                            out := multiset{Outgoing(1, 2, START)}, started := {Passed(1)})

  lemma FirstPasses()
    ensures Enabled(CONNECTED, Passing(1)) && Next(CONNECTED, Passing(1)) == FIRST
  {
    TwoIsTarget(1);
    ReasonsSay();
    hide Targets;
    assert Next(CONNECTED, Passing(1)).hub == FIRST.hub;
  }

  lemma {:induction false} OneMore(w: World, es: seq<Event>, e: Event)
    requires Runs(w, es) && Enabled(After(w, es), e)
    ensures Runs(w, es + [e]) && After(w, es + [e]) == Next(After(w, es), e)
    decreases |es|
  {
    hide Next, Enabled;
    if es == [] {
      assert es + [e] == [e] && [e][1..] == [];
    } else {
      OneMore(Next(w, es[0]), es[1..], e);
      assert (es + [e])[0] == es[0] && (es + [e])[1..] == es[1..] + [e];
    }
  }

  lemma FirstIsReachable() returns (es: seq<Event>)
    ensures Runs(EMPTY, es) && After(EMPTY, es) == FIRST && Base(FIRST)
  {
    hide Next, Enabled, Base;
    ThreeConnect();
    FirstPasses();
    es := CONNECTS + [Passing(1)];
    OneMore(EMPTY, CONNECTS, Passing(1));
    FirstBase();
  }

  lemma FirstBase()
    ensures Base(FIRST)
  {}

  lemma BothStrand()
    ensures Enabled(FIRST, Passing(3)) && Strands(FIRST, Passing(3))
    ensures Enabled(FIRST, Routes(3, STRAY, None)) && Strands(FIRST, Routes(3, STRAY, None))
  {
    TwoIsTarget(3);
    ReasonsSay();
    assert Targets(FIRST.hub, 3, "d2") == Targets(CONNECTED.hub, 3, "d2");
    assert Targets(FIRST.hub, 3, "nobody") == Targets(CONNECTED.hub, 3, "nobody");
    assert !Over(FIRST, Passed(1));
    hide Targets;
  }

  /** A start that repeats an id takes the watch away from the transfer it names; so does
      an ack for it that a third device sends to nobody. Its sender, still connected, is
      told nothing, not even when the receiver goes. */
  lemma SendersCanBeStranded() returns (repeated: seq<Event>, stray: seq<Event>)
    ensures Runs(EMPTY, repeated) && Passed(1) in After(EMPTY, repeated).started && !Accounted(After(EMPTY, repeated), Passed(1))
    ensures Runs(EMPTY, stray) && Passed(1) in After(EMPTY, stray).started && !Accounted(After(EMPTY, stray), Passed(1))
  {
    hide Next, Enabled, Strands, Base, Accounted;
    var es := FirstIsReachable();
    BothStrand();
    StrandingBreaks(FIRST, Passing(3));
    StrandingBreaks(FIRST, Routes(3, STRAY, None));
    repeated, stray := es + [Passing(3)], es + [Routes(3, STRAY, None)];
    OneMore(EMPTY, es, Passing(3));
    OneMore(EMPTY, es, Routes(3, STRAY, None));
  }
}
