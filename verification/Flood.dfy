/** The whole system: devices and relay accounts joined by connections that come
    and go, every send its own goroutine, so copies of clips cross in any order. */
module Flood {
  import opened Basics
  import opened Wire
  import opened Sync
  import Relay

  type PartyId = nat

  datatype Party = Node(device: Device) | Hub(acct: Relay.Account)

  /** One connection. Both ends exist from the start; each registers it on its own. */
  datatype Connection = Connection(a: PartyId, b: PartyId, up: bool) {
    predicate HasEnd(p: PartyId) { p == a || p == b }
    function Far(p: PartyId): PartyId { if p == a then b else a }
  }

  /** A copy of a clip on its way to one end of a connection. */
  datatype Packet = Packet(link: LinkId, to: PartyId, msg: Message)

  /** A Handle call between its two lock sections. */
  datatype Handling = Handling(at: PartyId, link: LinkId, msg: Message)

  /** A LocalCopy call between its two lock sections. */
  datatype Staged = Staged(at: PartyId, msg: Message)

  /** `issued`, `log` and `lost` are history: the clips ever stamped, the values each
      party's clip ever took, and what paused devices have dropped from which
      connection. */
  datatype World = World(
    key: Key,
    parties: map<PartyId, Party>,
    wires: map<LinkId, Connection>,
    flight: multiset<Packet>,
    pending: multiset<Handling>,
    staged: multiset<Staged>,
    issued: set<Message>,
    log: map<PartyId, seq<Message>>,
    lost: set<(LinkId, PartyId, Message)>)

  function Cur(p: Party): Option<Message> {
    match p
    case Node(d) => d.current
    case Hub(a) => a.current
  }

  function Ends(p: Party): set<LinkId> {
    match p
    case Node(d) => d.links
    case Hub(a) => a.conns
  }

  function CurAt(w: World, p: PartyId): Option<Message>
    requires p in w.parties
  {
    Cur(w.parties[p])
  }

  // ---- Steps ----

  datatype Event =
    | Connect(l: LinkId, a: PartyId, b: PartyId)
    | Register(p: PartyId, l: LinkId)
    | Break(l: LinkId)
    | Unregister(p: PartyId, l: LinkId)
    | Deliver(pk: Packet)
    | Finish(h: Handling)
    | Copy(p: PartyId, c: Content, now: int, id: string, me: string, name: string)
    | Publishing(s: Staged)
    | SetPaused(p: PartyId, paused: bool)

  predicate Enabled(w: World, e: Event) {
    match e
    case Connect(l, a, b) => l !in w.wires && a != b && a in w.parties && b in w.parties
    case Register(p, l) => p in w.parties && l in w.wires && w.wires[l].HasEnd(p) && l !in Ends(w.parties[p])
    case Break(l) => l in w.wires
    case Unregister(p, l) => p in w.parties && l in w.wires && l in Ends(w.parties[p]) && !w.wires[l].up
    case Deliver(pk) => pk in w.flight && pk.to in w.parties && pk.link in Ends(w.parties[pk.to])
    case Finish(h) => h in w.pending && h.at in w.parties && w.parties[h.at].Node?
    case Copy(p, c, now, id, me, name) =>
      && p in w.parties && w.parties[p].Node? && -TWO_63 <= now < TWO_63
      && forall m | m in w.issued :: m.id != id
    case Publishing(s) => s in w.staged && s.at in w.parties && w.parties[s.at].Node?
    case SetPaused(p, b) => p in w.parties && w.parties[p].Node?
  }

  /** The copies that sending `m` from `p` over the links `ls` puts on their way. A
      send over a connection that is down fails and closes it once more. */
  function Sends(w: World, p: PartyId, ls: set<LinkId>, m: Message): set<Packet> {
    set l | l in ls && l in w.wires && w.wires[l].up :: Packet(l, w.wires[l].Far(p), m)
  }

  /** Party `p` turns into `party`, holding `m`, and sends it over `ls`. */
  function Adopt(w: World, p: PartyId, party: Party, m: Message, ls: set<LinkId>): World {
    w.(parties := w.parties[p := party],
       flight := w.flight + multiset(Sends(w, p, ls, m)),
       log := w.log[p := (if p in w.log then w.log[p] else []) + [m]])
  }

  function Next(w: World, e: Event): World
    requires Enabled(w, e)
  {
    match e
    case Connect(l, a, b) => w.(wires := w.wires[l := Connection(a, b, true)])
    case Register(p, l) => Registered(w, p, l)
    case Break(l) => w.(wires := w.wires[l := w.wires[l].(up := false)])
    case Unregister(p, l) => w.(parties := w.parties[p := WithoutLink(w.parties[p], l)])
    case Deliver(pk) => Delivered(w.(flight := w.flight - multiset{pk}), pk)
    case Finish(h) => Finished(w.(pending := w.pending - multiset{h}), h)
    case Copy(p, c, now, id, me, name) =>
      var (d, m) := Originate(w.parties[p].device, c, now, id, me, name, w.key);
      var w' := w.(parties := w.parties[p := Node(d)]);
      if m.None? then w' else w'.(staged := w'.staged + multiset{Staged(p, m.value)}, issued := w'.issued + {m.value})
    case Publishing(s) =>
      var (d, ls) := Publish(w.parties[s.at].device, s.msg);
      Adopt(w.(staged := w.staged - multiset{s}), s.at, Node(d), s.msg, ls)
    case SetPaused(p, b) => w.(parties := w.parties[p := Node(w.parties[p].device.(paused := b))])
  }

  function WithLink(p: Party, l: LinkId): Party {
    match p
    case Node(d) => Node(AddLink(d, l))
    case Hub(a) => Hub(a.(conns := a.conns + {l}))
  }

  function WithoutLink(p: Party, l: LinkId): Party {
    match p
    case Node(d) => Node(RemoveLink(d, l))
    case Hub(a) => Hub(a.(conns := a.conns - {l}))
  }

  /** AddLink at a device, or a connection joining its account at the hub: the new
      link is recorded and sent the current clip. */
  function Registered(w: World, p: PartyId, l: LinkId): World
    requires p in w.parties
  {
    var w' := w.(parties := w.parties[p := WithLink(w.parties[p], l)]);
    match CurAt(w, p)
    case None => w'
    case Some(m) => w'.(flight := w.flight + multiset(Sends(w, p, {l}, m)))
  }

  /** A clip comes off a connection: a device runs the first section of Handle, the
      hub its only one. */
  function Delivered(w: World, pk: Packet): World
    requires pk.to in w.parties
  {
    match w.parties[pk.to]
    case Node(d) =>
      var (d', go) := Check(d, pk.msg);
      var w' := w.(parties := w.parties[pk.to := Node(d')],
                   lost := if d.paused then w.lost + {(pk.link, pk.to, pk.msg)} else w.lost);
      if go then w'.(pending := w.pending + multiset{Handling(pk.to, pk.link, pk.msg)}) else w'
    case Hub(a) =>
      var (a', out) := Relay.Accept(a, pk.link, pk.msg);
      match out
      case None => w
      case Some(ls) => Adopt(w, pk.to, Hub(a'), pk.msg, ls)
  }

  /** The clip is decrypted, and the second section of Handle runs. */
  function Finished(w: World, h: Handling): World
    requires h.at in w.parties && w.parties[h.at].Node?
  {
    match OpenClip(w.key, h.msg)
    case None => w
    case Some(plain) =>
      match ContentFrom(h.msg, plain)
      case None => w
      case Some(c) =>
        var (d', outcome) := Commit(w.parties[h.at].device, h.link, h.msg, c.Digest());
        match outcome
        case Stale => w
        case Adopted(ls, _) => Adopt(w, h.at, Node(d'), h.msg, ls)
  }

  /** LocalCopy's second section stores the stamped clip unconditionally. The step is
      calm when the clip it stores is still newer than the current one. */
  predicate Calm(w: World, e: Event) {
    e.Publishing? ==> e.s.at in w.parties && Newer(e.s.msg, CurAt(w, e.s.at))
  }

  // ---- Runs ----

  predicate Runs(w: World, es: seq<Event>)
    decreases |es|
  {
    es == [] || (Enabled(w, es[0]) && Runs(Next(w, es[0]), es[1..]))
  }

  function After(w: World, es: seq<Event>): World
    requires Runs(w, es)
    decreases |es|
  {
    if es == [] then w else After(Next(w, es[0]), es[1..])
  }

  predicate CalmRun(w: World, es: seq<Event>)
    requires Runs(w, es)
    decreases |es|
  {
    es == [] || (Calm(w, es[0]) && CalmRun(Next(w, es[0]), es[1..]))
  }

  /** Every party is new and nothing has been connected or copied yet. */
  predicate Fresh(w: World) {
    && w.wires == map[] && w.flight == multiset{} && w.pending == multiset{} && w.staged == multiset{}
    && w.issued == {} && w.log == map[] && w.lost == {}
    && forall p | p in w.parties :: Ends(w.parties[p]) == {} && CurAt(w, p) == None
                                    && (w.parties[p].Node? ==> w.parties[p].device.seen == [])
  }
}
