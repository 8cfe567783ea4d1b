/** The bounded history of recent clips (internal/node/history.go). */
module History {
  import opened Basics
  import opened Wire

  datatype Item = Item(id: string, time: int, origin: string, originName: string, isLocal: bool, content: Content)

  function ItemOf(m: Message, c: Content, isLocal: bool): Item {
    Item(m.id, m.time, m.origin, m.originName, isLocal, c)
  }

  function Size(items: seq<Item>): nat {
    if items == [] then 0 else Size(items[..|items| - 1]) + |items[|items| - 1].content.Payload()|
  }

  predicate Holds(items: seq<Item>, h: Hash) {
    exists i :: 0 <= i < |items| && items[i].content.Digest() == h
  }

  /** No content twice. */
  predicate Distinct(items: seq<Item>) {
    forall i, j | 0 <= i < j < |items| :: items[i].content.Digest() != items[j].content.Digest()
  }

  /** The list without the first item of this content. */
  function Without(items: seq<Item>, h: Hash): seq<Item> {
    if items == [] then []
    else if items[0].content.Digest() == h then items[1..]
    else [items[0]] + Without(items[1..], h)
  }

  /** The first k items are within both bounds. */
  predicate Fits(items: seq<Item>, k: nat, maxItems: int, maxBytes: int)
    requires k <= |items|
  {
    k == 0 || (k <= maxItems && Size(items[..k]) <= maxBytes)
  }

  predicate Longest(items: seq<Item>, k: nat, maxItems: int, maxBytes: int) {
    && k <= |items| && Fits(items, k, maxItems, maxBytes)
    && forall j | k < j <= |items| :: !Fits(items, j, maxItems, maxBytes)
  }

  /** What Add makes of the list: the longest prefix within the bounds of the new item
      followed by the others. */
  ghost predicate Added(was: seq<Item>, item: Item, maxItems: int, maxBytes: int, now: seq<Item>) {
    var all := [item] + Without(was, item.content.Digest());
    exists k: nat :: Longest(all, k, maxItems, maxBytes) && now == all[..k]
  }

  lemma {:induction false} SizeGrows(items: seq<Item>, j: nat, k: nat)
    requires j <= k <= |items|
    ensures Size(items[..j]) <= Size(items[..k])
    decreases k
  {
    if j < k {
      SizeGrows(items, j, k - 1);
      assert items[..k][..k - 1] == items[..k - 1];
    }
  }

  /** Nothing past the first prefix that does not fit can fit. */
  lemma CutHere(items: seq<Item>, k: nat, maxItems: int, maxBytes: int)
    requires k < |items| && Fits(items, k, maxItems, maxBytes)
    requires k >= maxItems || Size(items[..k + 1]) > maxBytes
    ensures Longest(items, k, maxItems, maxBytes)
  {
    forall j | k < j <= |items| ensures !Fits(items, j, maxItems, maxBytes) { SizeGrows(items, k + 1, j); }
  }

  lemma {:induction false} WithoutAt(items: seq<Item>, i: nat)
    requires i < |items| && forall j | 0 <= j < i :: items[j].content.Digest() != items[i].content.Digest()
    ensures Without(items, items[i].content.Digest()) == items[..i] + items[i + 1..]
  {
    if i > 0 {
      WithoutAt(items[1..], i - 1);
      assert items[1..][..i - 1] == items[1..i] && items[1..][i..] == items[i + 1..];
    }
  }

  lemma {:induction false} WithoutAbsent(items: seq<Item>, h: Hash)
    requires !Holds(items, h)
    ensures Without(items, h) == items
  {
    if items != [] {
      assert forall j | 0 <= j < |items| - 1 :: items[1..][j] == items[j + 1];
      WithoutAbsent(items[1..], h);
    }
  }

  class History {
    var items: seq<Item>
    const maxItems: int
    const maxBytes: int
    var enabled: bool

    constructor (maxItems: int, maxBytes: int)
      ensures items == [] && enabled && this.maxItems == maxItems && this.maxBytes == maxBytes
    {
      this.maxItems, this.maxBytes, items, enabled := maxItems, maxBytes, [], true;
    }

    method Remove(h: Hash)
      modifies this`items
      ensures items == Without(old(items), h)
    {
      var i := 0;
      while i < |items|
        invariant 0 <= i <= |items| && items == old(items)
        invariant forall j | 0 <= j < i :: items[j].content.Digest() != h
      {
        if items[i].content.Digest() == h {
          WithoutAt(items, i);
          items := items[..i] + items[i + 1..];
          return;
        }
        i := i + 1;
      }
      WithoutAbsent(items, h);
    }

    /** Cut the list at the first item that breaks a bound. */
    method Trim()
      modifies this`items
      ensures exists k: nat :: Longest(old(items), k, maxItems, maxBytes) && items == old(items)[..k]
    {
      ghost var all := items;
      var total, i := 0, 0;
      while i < |items|
        invariant 0 <= i <= |items| && items == all
        invariant total == Size(all[..i]) && Fits(all, i, maxItems, maxBytes)
      {
        total := total + |items[i].content.Payload()|;
        assert all[..i + 1][..i] == all[..i];
        if i >= maxItems || total > maxBytes {
          CutHere(all, i, maxItems, maxBytes);
          items := items[..i];
          return;
        }
        i := i + 1;
      }
      assert Longest(all, |all|, maxItems, maxBytes) && all == all[..|all|];
    }

    method Add(m: Message, c: Content, isLocal: bool)
      modifies this`items
      ensures if old(enabled) then Added(old(items), ItemOf(m, c, isLocal), maxItems, maxBytes, items) else items == old(items)
      ensures old(enabled) && items != [] ==> items[0] == Item(m.id, m.time, m.origin, m.originName, isLocal, c)
    {
      if !enabled { return; }
      hide Longest, Without;
      Remove(c.Digest());
      items := [ItemOf(m, c, isLocal)] + items;
      Trim();
    }

    method Clear()
      modifies this`items
      ensures items == []
    {
      items := [];
    }

    method SetEnabled(on: bool)
      modifies this
      ensures enabled == on && items == if on then old(items) else []
    {
      enabled := on;
      if !on { items := []; }
    }
  }

  // ---- Runs ----

  datatype Event = Adds(item: Item) | Clears | Enables(on: bool)

  datatype State = State(items: seq<Item>, enabled: bool)

  /** `t` is a state one event away from `s`. */
  ghost predicate Step(s: State, e: Event, t: State, maxItems: int, maxBytes: int) {
    match e
    case Adds(item) =>
      t.enabled == s.enabled && if s.enabled then Added(s.items, item, maxItems, maxBytes, t.items) else t == s
    case Clears => t == s.(items := [])
    case Enables(on) => t == State(if on then s.items else [], on)
  }

  ghost predicate Runs(ss: seq<State>, es: seq<Event>, maxItems: int, maxBytes: int) {
    && |ss| == |es| + 1 && ss[0] == State([], true)
    && forall i | 0 <= i < |es| :: Step(ss[i], es[i], ss[i + 1], maxItems, maxBytes)
  }

  /** Everything recorded since it was last cleared, most recent first, with no bounds. */
  function Everything(es: seq<Event>): State {
    if es == [] then State([], true)
    else
      var s := Everything(es[..|es| - 1]);
      match es[|es| - 1]
      case Adds(item) => if s.enabled then s.(items := [item] + Without(s.items, item.content.Digest())) else s
      case Clears => s.(items := [])
      case Enables(on) => State(if on then s.items else [], on)
  }

  lemma FrontDistinct(x: Item, w: seq<Item>)
    requires Distinct(w) && !Holds(w, x.content.Digest())
    ensures Distinct([x] + w)
  {
    var all := [x] + w;
    forall i, j | 0 <= i < j < |all| ensures all[i].content.Digest() != all[j].content.Digest() {
      assert all[j] == w[j - 1];
      if i > 0 { assert all[i] == w[i - 1]; }
    }
  }

  lemma RestDistinct(items: seq<Item>)
    requires items != [] && Distinct(items)
    ensures Distinct(items[1..]) && !Holds(items[1..], items[0].content.Digest())
  {
    assert forall j | 0 <= j < |items| - 1 :: items[1..][j] == items[j + 1];
  }

  lemma FewerHold(a: seq<Item>, b: seq<Item>, h: Hash)
    requires (forall x | x in a :: x in b) && !Holds(b, h)
    ensures !Holds(a, h)
  {
    forall i | 0 <= i < |a| ensures a[i].content.Digest() != h { assert a[i] in b; }
  }

  lemma {:induction false} WithoutKeeps(items: seq<Item>, h: Hash)
    requires Distinct(items)
    ensures Distinct(Without(items, h)) && !Holds(Without(items, h), h)
    ensures forall x | x in Without(items, h) :: x in items
  {
    if items != [] {
      var rest := items[1..];
      RestDistinct(items);
      hide Distinct, Holds;
      WithoutKeeps(rest, h);
      FewerHold(Without(rest, h), rest, items[0].content.Digest());
      if items[0].content.Digest() != h {
        FrontDistinct(items[0], Without(rest, h));
        FrontHolds(items[0], Without(rest, h), h);
      }
    }
  }

  lemma FrontHolds(x: Item, w: seq<Item>, h: Hash)
    requires x.content.Digest() != h && !Holds(w, h)
    ensures !Holds([x] + w, h)
  {
    var all := [x] + w;
    forall i | 0 <= i < |all| ensures all[i].content.Digest() != h {
      if i > 0 { assert all[i] == w[i - 1]; }
    }
  }

  lemma {:induction false} WithoutPrefix(a: seq<Item>, b: seq<Item>, h: Hash)
    requires a <= b
    ensures Without(a, h) <= Without(b, h)
    decreases |a|
  {
    if a != [] { WithoutPrefix(a[1..], b[1..], h); }
  }

  /** Removing from a prefix, when the content lies beyond it, leaves the prefix alone. */
  lemma OneAdded(was: seq<Item>, full: seq<Item>, item: Item, maxItems: int, maxBytes: int, now: seq<Item>)
    requires was <= full && Distinct(full) && Added(was, item, maxItems, maxBytes, now)
    ensures var full' := [item] + Without(full, item.content.Digest());
            now <= full' && Distinct(full')
  {
    var h := item.content.Digest();
    WithoutPrefix(was, full, h);
    WithoutKeeps(full, h);
    var w := Without(full, h);
    var full' := [item] + w;
    forall i, j | 0 <= i < j < |full'| ensures full'[i].content.Digest() != full'[j].content.Digest() {
      assert full'[j] == w[j - 1];
      if i > 0 { assert full'[i] == w[i - 1]; }
    }
  }

  /** After any run of Add, Clear and SetEnabled the history is a prefix of everything
      recorded since it was last cleared, most recent first; no content is in it twice;
      and it keeps within both bounds. */
  lemma {:induction false} HistoryIsRecent(ss: seq<State>, es: seq<Event>, maxItems: int, maxBytes: int)
    requires Runs(ss, es, maxItems, maxBytes)
    ensures var s, full := ss[|es|], Everything(es);
            && s.items <= full.items && s.enabled == full.enabled && Distinct(full.items) && Distinct(s.items)
            && Fits(s.items, |s.items|, maxItems, maxBytes)
    decreases |es|
  {
    if es != [] {
      var n := |es| - 1;
      HistoryIsRecent(ss[..n + 1], es[..n], maxItems, maxBytes);
      assert Step(ss[n], es[n], ss[n + 1], maxItems, maxBytes);
      if es[n].Adds? && ss[n].enabled {
        var item := es[n].item;
        OneAdded(ss[n].items, Everything(es[..n]).items, item, maxItems, maxBytes, ss[n + 1].items);
        var all := [item] + Without(ss[n].items, item.content.Digest());
        var k: nat :| Longest(all, k, maxItems, maxBytes) && ss[n + 1].items == all[..k];
        assert ss[n + 1].items[..k] == all[..k];
      }
    }
  }

  /** A clip too large for the whole history does not only stay out, it empties it. */
  lemma OversizedClipEmpties(was: seq<Item>, item: Item, maxItems: int, maxBytes: int, now: seq<Item>)
    requires Added(was, item, maxItems, maxBytes, now)
    ensures now == [] <==> maxItems < 1 || |item.content.Payload()| > maxBytes
  {
    var all := [item] + Without(was, item.content.Digest());
    var k: nat :| Longest(all, k, maxItems, maxBytes) && now == all[..k];
    assert all[..1] == [item] && [item][..0] == [];
    assert Size([item]) == Size([]) + |item.content.Payload()|;
    assert Size(all[..1]) == |item.content.Payload()|;
    if k > 0 { SizeGrows(all, 1, k); }
    if k == 0 { assert !Fits(all, 1, maxItems, maxBytes); }
  }

  /** Nothing is lost while it fits: if everything recorded since the last clearing was within
      both bounds all along, the history is all of it. */
  lemma {:induction false} NothingLostWhileItFits(ss: seq<State>, es: seq<Event>, maxItems: int, maxBytes: int)
    requires Runs(ss, es, maxItems, maxBytes)
    requires forall n | 0 <= n <= |es| :: AllFits(es[..n], maxItems, maxBytes)
    ensures ss[|es|] == Everything(es)
    decreases |es|
  {
    if es != [] {
      var n := |es| - 1;
      forall k | 0 <= k <= n ensures AllFits(es[..n][..k], maxItems, maxBytes) {
        assert es[..n][..k] == es[..k];
        assert AllFits(es[..k], maxItems, maxBytes);
      }
      NothingLostWhileItFits(ss[..n + 1], es[..n], maxItems, maxBytes);
      assert Step(ss[n], es[n], ss[n + 1], maxItems, maxBytes);
      assert es[..|es|] == es && AllFits(es[..|es|], maxItems, maxBytes);
      if es[n].Adds? && ss[n].enabled {
        var all := [es[n].item] + Without(ss[n].items, es[n].item.content.Digest());
        assert all == Everything(es).items && all[..|all|] == all;
        var k: nat :| Longest(all, k, maxItems, maxBytes) && ss[n + 1].items == all[..k];
        assert k == |all|;
      }
    }
  }

  predicate AllFits(es: seq<Event>, maxItems: int, maxBytes: int) {
    Fits(Everything(es).items, |Everything(es).items|, maxItems, maxBytes)
  }
}
