/** The sync engine as it runs: one object per device, its fields changed in place by
    one lock section at a time (internal/node/node.go). */
module Engine {
  import opened Basics
  import opened Wire
  import opened Sync

  /** The in-process clipboard (internal/clipboard/clipboard.go). */
  class Memory {
    var content: Option<Content>
    var changes: nat

    constructor ()
      ensures State() == Board(None, 0)
    {
      content, changes := None, 0;
    }

    function State(): Board reads this {
      Board(content, changes)
    }

    method Write(c: Content)
      modifies this
      ensures State() == Sync.Write(old(State()), c)
    {
      content := Some(c);
      changes := changes + 1;
    }
  }

  class Node {
    const me: string
    const name: string
    const key: Key
    const board: Memory
    var paused: bool
    var skipSensitive: bool
    var links: set<LinkId>
    var current: Option<Message>
    var seen: set<string>
    var seenOrder: seq<string>
    var lastHash: Option<Hash>
    var lastSeq: nat

    /** The set and the queue of seen ids agree, and the window is bounded. */
    ghost predicate Valid() reads this {
      && (forall x :: x in seen <==> x in seenOrder)
      && (forall i, j | 0 <= i < j < |seenOrder| :: seenOrder[i] != seenOrder[j])
      && |seenOrder| <= SEEN_LIMIT
    }

    /** The abstract device. */
    ghost function State(): Device reads this {
      Device(paused, skipSensitive, links, current, seenOrder, lastHash, lastSeq)
    }

    constructor (me: string, name: string, key: Key, board: Memory)
      ensures Valid() && this.board == board && this.me == me && this.name == name && this.key == key
      ensures State() == Device(false, true, {}, None, [], None, 0)
    {
      this.me, this.name, this.key, this.board := me, name, key, board;
      paused, skipSensitive, links, current := false, true, {}, None;
      seen, seenOrder, lastHash, lastSeq := {}, [], None, 0;
    }

    /** markSeen. */
    method MarkSeen(id: string)
      requires Valid()
      modifies this`seen, this`seenOrder
      ensures Valid() && State() == old(State()).(seen := Remember(old(seenOrder), id))
    {
      if id in seen {
        return;
      }
      seen := seen + {id};
      seenOrder := seenOrder + [id];
      assert forall x :: x in seen <==> x in seenOrder;
      if |seenOrder| > SEEN_LIMIT {
        ghost var all := seenOrder;
        seen := seen - {seenOrder[0]};
        seenOrder := seenOrder[1..];
        assert all == [all[0]] + seenOrder;
      }
    }

    /** linksExcept: the registered links but one, each once. */
    method LinksExcept(except: Option<LinkId>) returns (out: seq<LinkId>)
      ensures forall l :: l in out <==> l in links && except != Some(l)
      ensures forall i, j | 0 <= i < j < |out| :: out[i] != out[j]
    {
      out := [];
      var left := links;
      while left != {}
        invariant left <= links
        invariant forall l :: l in out <==> l in links - left && except != Some(l)
        invariant forall i, j | 0 <= i < j < |out| :: out[i] != out[j]
        decreases left
      {
        var l :| l in left;
        left := left - {l};
        if except != Some(l) {
          out := out + [l];
        }
      }
    }

    /** First lock section of Handle. */
    method CheckClip(m: Message) returns (go: bool)
      requires Valid()
      modifies this`seen, this`seenOrder
      ensures Valid() && (State(), go) == Check(old(State()), m)
    {
      if paused {
        return false;
      }
      if m.id in seen || !Newer(m, current) {
        MarkSeen(m.id);
        return false;
      }
      MarkSeen(m.id);
      go := true;
    }

    /** Second lock section of Handle. */
    method CommitClip(l: LinkId, m: Message, h: Hash) returns (others: seq<LinkId>, apply: bool)
      requires Valid()
      modifies this`current, this`lastHash
      ensures Valid() && State() == Commit(old(State()), l, m, h).0
      ensures match Commit(old(State()), l, m, h).1
              case Stale => others == [] && !apply
              case Adopted(forward, write) => (forall x :: x in others <==> x in forward) && apply == write
    {
      if !Newer(m, current) {
        return [], false;
      }
      current := Some(m);
      apply := Some(h) != lastHash;
      lastHash := Some(h);
      others := LinksExcept(Some(l));
    }

    /** Handle for a clip, when nothing else runs on this device meanwhile. */
    method Handle(l: LinkId, m: Message, io: Io) returns (others: seq<LinkId>)
      requires Valid() && m.mtype == TYPE_CLIP
      modifies this, board
      ensures Valid()
      ensures var (d, b, forward) := HandleClip(old(State()), old(board.State()), l, m, key, io);
              State() == d && board.State() == b && forall x :: x in others <==> x in forward
    {
      others := [];
      var go := CheckClip(m);
      if !go {
        return;
      }
      var plain := OpenClip(key, m);
      if plain.None? {
        return;
      }
      var c := ContentFrom(m, plain.value);
      if c.None? {
        return;
      }
      var apply;
      others, apply := CommitClip(l, m, c.value.Digest());
      if apply && io.write {
        board.Write(c.value);
        if io.counterAfter {
          lastSeq := board.changes;
        }
      }
    }

    /** First lock section of LocalCopy, and the sealing after it. */
    method StampClip(c: Content, now: int, id: string) returns (m: Option<Message>)
      requires Valid()
      modifies this`lastHash
      ensures Valid() && (State(), m) == Originate(old(State()), c, now, id, me, name, key)
    {
      if !c.Valid() {
        return None;
      }
      var h := c.Digest();
      if Some(h) == lastHash {
        return None;
      }
      lastHash := Some(h);
      if paused || (c.sensitive && skipSensitive) {
        return None;
      }
      var time := now;
      if current.Some? && time <= current.value.time {
        time := Wrap64(current.value.time + 1);
      }
      var clip := Message(TYPE_CLIP, id, me, name, time, c.ctype, c.mime, "", 0, "", NoBody);
      m := Some(SealClip(key, clip, c.Payload()));
    }

    /** Second lock section of LocalCopy. */
    method PublishClip(m: Message) returns (targets: seq<LinkId>)
      requires Valid()
      modifies this`current, this`seen, this`seenOrder
      ensures Valid() && State() == Publish(old(State()), m).0
      ensures forall l :: l in targets <==> l in Publish(old(State()), m).1
    {
      current := Some(m);
      MarkSeen(m.id);
      targets := LinksExcept(None);
    }

    /** LocalCopy, when nothing else runs on this device meanwhile. */
    method CopyLocal(c: Content, now: int, id: string) returns (m: Option<Message>, targets: seq<LinkId>)
      requires Valid()
      modifies this
      ensures Valid()
      ensures var (d, sent, ls) := LocalCopy(old(State()), c, now, id, me, name, key);
              State() == d && m == sent && forall l :: l in targets <==> l in ls
    {
      targets := [];
      m := StampClip(c, now, id);
      if m.Some? {
        targets := PublishClip(m.value);
      }
    }

    /** poll. */
    method PollBoard(now: int, id: string, io: Io) returns (m: Option<Message>, targets: seq<LinkId>)
      requires Valid()
      modifies this
      ensures Valid()
      ensures var (d, sent, ls) := Poll(old(State()), board.State(), now, id, me, name, key, io);
              State() == d && m == sent && forall l :: l in targets <==> l in ls
    {
      m, targets := None, [];
      if !io.counter || board.changes == lastSeq {
        return;
      }
      lastSeq := board.changes;
      if !io.read || board.content.None? {
        return;
      }
      m, targets := CopyLocal(board.content.value, now, id);
    }

    /** AddLink: the link is recorded and will be sent the current clip. */
    method Join(l: LinkId) returns (send: Option<Message>)
      requires Valid()
      modifies this`links
      ensures Valid() && State() == AddLink(old(State()), l) && send == current
    {
      links := links + {l};
      send := current;
    }

    /** RemoveLink. */
    method Leave(l: LinkId)
      requires Valid()
      modifies this`links
      ensures Valid() && State() == RemoveLink(old(State()), l)
    {
      links := links - {l};
    }
  }
}
