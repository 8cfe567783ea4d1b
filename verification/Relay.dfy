/** The clip half of the server hub: one account keeps its newest clip and passes
    newer ones on (internal/server/server.go, readLoop). */
module Relay {
  import opened Basics
  import opened Wire

  type ConnId = nat

  datatype Account = Account(conns: set<ConnId>, current: Option<Message>)

  /** The lock section for one clip; Some holds the connections it is passed to. */
  function Accept(a: Account, from: ConnId, m: Message): (Account, Option<set<ConnId>>) {
    if !Newer(m, a.current) || (a.current.Some? && a.current.value.id == m.id) then (a, None)
    else (a.(current := Some(m)), Some(a.conns - {from}))
  }

  /** The account after a series of clips, each from some connection. */
  function AcceptAll(a: Account, ms: seq<(ConnId, Message)>): Account {
    if ms == [] then a
    else
      var n := |ms| - 1;
      Accept(AcceptAll(a, ms[..n]), ms[n].0, ms[n].1).0
  }

  /** An id names one clip. */
  predicate IdsName(a: Account, ms: seq<(ConnId, Message)>) {
    && (forall x, y | x in ms && y in ms && x.1.id == y.1.id :: x.1 == y.1)
    && (a.current.Some? ==> forall x | x in ms && x.1.id == a.current.value.id :: x.1 == a.current.value)
  }

  /** Whatever clips come, in whatever order and however often, the hub ends up with one
      that is at least as new as all of them and as the one it had, and that is one of
      these. */
  lemma {:induction false} TheNewestStays(a: Account, ms: seq<(ConnId, Message)>)
    requires IdsName(a, ms)
    ensures var cur := AcceptAll(a, ms).current;
            && (cur == a.current || exists x :: x in ms && cur == Some(x.1))
            && (forall x | x in ms :: Covers(cur, x.1))
            && (a.current.Some? ==> Covers(cur, a.current.value))
    decreases |ms|
  {
    if ms == [] {
      if a.current.Some? { CoversSelf(a.current.value); }
    } else {
      var n := |ms| - 1;
      var was, m := AcceptAll(a, ms[..n]), ms[n].1;
      TheNewestStays(a, ms[..n]);
      CoversSelf(m);
      assert ms == ms[..n] + [ms[n]];
      if Newer(m, was.current) && was.current.Some? {
        BeatsIrreflexive(m);
        assert was.current.value != m && was.current.value.id != m.id;
        NewerCovers(m, was.current.value);
        forall x | x in ms[..n] ensures Covers(Some(m), x.1) { CoversTransitive(Some(m), was.current.value, x.1); }
        if a.current.Some? { CoversTransitive(Some(m), was.current.value, a.current.value); }
      }
    }
  }

  /** Once the hub has passed a clip on, a message with its id is refused, whatever time it
      claims, until another clip has been taken. */
  lemma SameIdIsRefused(a: Account, from: ConnId, m: Message, again: ConnId, copy: Message)
    requires Accept(a, from, m).1.Some? && copy.id == m.id
    ensures var a' := Accept(a, from, m).0; Accept(a', again, copy) == (a', None) && a'.current == Some(m)
  {}

  /** A clip is passed on to exactly the other connections of the account. */
  lemma PassedToTheOthers(a: Account, from: ConnId, m: Message)
    ensures var (a', out) := Accept(a, from, m);
            && a'.conns == a.conns && (out.Some? ==> forall c :: c in out.value <==> c in a.conns && c != from)
            && (out.None? ==> a' == a && (Covers(a.current, m) || (a.current.Some? && a.current.value.id == m.id)))
  {}
}
