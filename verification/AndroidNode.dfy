/** The second implementation of the sync engine, in Kotlin (android core/Node.kt). It
    keeps insertion-ordered sets where the Go engine keeps a set and a queue, and proves
    to take the very same steps, so networks that mix the two behave as one. */
module AndroidEngine {
  import opened Basics
  import opened Wire
  import opened Sync

  /** No element twice. */
  predicate Unique<T(==)>(s: seq<T>) {
    forall i, j | 0 <= i < j < |s| :: s[i] != s[j]
  }

  function Elements<T(==)>(s: seq<T>): set<T> {
    set x | x in s
  }

  class Node {
    const me: string
    const name: string
    const key: Key
    var paused: bool
    var skipSensitive: bool
    var links: seq<LinkId>
    var current: Option<Message>
    var seen: seq<string>
    var lastHash: Option<Hash>

    ghost predicate Valid()
      reads this
    {
      Unique(links) && Unique(seen) && |seen| <= SEEN_LIMIT
    }

    /** The abstract device; there is no clipboard counter on Android. */
    ghost function State(): Device
      reads this
    {
      Device(paused, skipSensitive, Elements(links), current, seen, lastHash, 0)
    }

    constructor (me: string, name: string, key: Key)
      ensures Valid() && this.me == me && this.name == name && this.key == key
      ensures State() == Device(false, true, {}, None, [], None, 0)
    {
      this.me, this.name, this.key := me, name, key;
      paused, skipSensitive, links, current, seen, lastHash := false, true, [], None, [], None;
    }

    /** markSeen: add, and drop the first once there are too many. */
    method MarkSeen(id: string)
      requires Valid()
      modifies this`seen
      ensures Valid() && State() == old(State()).(seen := Remember(old(seen), id))
    {
      if id !in seen {
        seen := seen + [id];
        if |seen| > SEEN_LIMIT { seen := seen[1..]; }
      }
    }

    /** The links but one, in order. */
    method Others(except: LinkId) returns (out: seq<LinkId>)
      ensures forall l :: l in out <==> l in links && l != except
    {
      out := [];
      for i := 0 to |links|
        invariant forall l :: l in out <==> l in links[..i] && l != except
      {
        if links[i] != except { out := out + [links[i]]; }
      }
      assert links[..|links|] == links;
    }

    /** First synchronized section of handle. */
    method CheckClip(m: Message) returns (go: bool)
      requires Valid()
      modifies this`seen
      ensures Valid() && (State(), go) == Check(old(State()), m)
    {
      if paused { return false; }
      var dup := m.id in seen || !NewerThanKotlin(m, current);
      BothImplementationsAgree(m, current);
      MarkSeen(m.id);
      go := !dup;
    }

    /** Second synchronized section of handle. */
    method CommitClip(l: LinkId, m: Message, h: Hash) returns (others: seq<LinkId>, apply: bool)
      requires Valid()
      modifies this`current, this`lastHash
      ensures Valid() && State() == Commit(old(State()), l, m, h).0
      ensures match Commit(old(State()), l, m, h).1
              case Stale => others == [] && !apply
              case Adopted(forward, write) => (forall x :: x in others <==> x in forward) && apply == write
    {
      BothImplementationsAgree(m, current);
      if !NewerThanKotlin(m, current) { return [], false; }
      current := Some(m);
      apply := Some(h) != lastHash;
      lastHash := Some(h);
      others := Others(l);
    }

    /** First synchronized section of localCopy, and the sealing after it. */
    method StampClip(c: Content, time: int, id: string) returns (m: Option<Message>)
      requires Valid()
      modifies this`lastHash
      ensures Valid() && (State(), m) == Originate(old(State()), c, time, id, me, name, key)
    {
      if !c.Valid() { return None; }
      var h := c.Digest();
      if Some(h) == lastHash { return None; }
      lastHash := Some(h);
      if paused || (c.sensitive && skipSensitive) { return None; }
      var now := time;
      if current.Some? && now <= current.value.time { now := Wrap64(current.value.time + 1); }
      m := Some(SealClip(key, Message(TYPE_CLIP, id, me, name, now, c.ctype, c.mime, "", 0, "", NoBody), c.Payload()));
    }

    /** Second synchronized section of localCopy. */
    method PublishClip(m: Message) returns (targets: seq<LinkId>)
      requires Valid()
      modifies this`current, this`seen
      ensures Valid() && State() == Publish(old(State()), m).0
      ensures forall l :: l in targets <==> l in Publish(old(State()), m).1
    {
      current := Some(m);
      MarkSeen(m.id);
      targets := links;
    }

    /** addLink. */
    method Join(l: LinkId) returns (send: Option<Message>)
      requires Valid()
      modifies this`links
      ensures Valid() && State() == AddLink(old(State()), l) && send == current
    {
      if l !in links { links := links + [l]; }
      send := current;
    }

    /** removeLink. */
    method Leave(l: LinkId)
      requires Valid()
      modifies this`links
      ensures Valid() && State() == RemoveLink(old(State()), l)
    {
      var i := 0;
      while i < |links| && links[i] != l
        invariant 0 <= i <= |links| && l !in links[..i]
      {
        i := i + 1;
      }
      if i < |links| {
        ghost var was := links;
        links := links[..i] + links[i + 1..];
        assert was == was[..i] + [l] + was[i + 1..];
        assert forall x :: x in links <==> x in was && x != l;
      }
    }
  }
}
