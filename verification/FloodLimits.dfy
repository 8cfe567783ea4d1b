/** Where the convergence claim stops: two concrete runs of two devices that end
    quiet, joined and different. */
module FloodLimits {
  import opened Basics
  import opened Wire
  import opened Sync
  import opened Flood
  import opened Convergence
  import opened FloodTheorems

  const IDLE := Device(false, true, {}, None, [], None, 0)

  function Start(): World {
    World(0, map[0 := Node(IDLE), 1 := Node(IDLE)], map[], multiset{}, multiset{}, multiset{}, {}, map[], {})
  }

  function Letter(b: byte): Content {
    Content(CLIP_TEXT, [b], [], "text/plain", false)
  }

  function Clip(id: string, time: int, b: byte): Message {
    SealClip(0, Message(TYPE_CLIP, id, "", "", time, CLIP_TEXT, "text/plain", "", 0, "", NoBody), [b])
  }

  /** Devices 0 and 1 are joined by connection 7 and idle. */
  function Linked(): World {
    Start().(parties := map[0 := Node(IDLE.(links := {7})), 1 := Node(IDLE.(links := {7}))],
             wires := map[7 := Connection(0, 1, true)])
  }

  lemma LinkedIsReachable() returns (es: seq<Event>)
    ensures Fresh(Start()) && Runs(Start(), es) && CalmRun(Start(), es) && After(Start(), es) == Linked()
  {
    var w1 := Next(Start(), Connect(7, 0, 1));
    var w2 := Next(w1, Register(0, 7));
    var w3 := Next(w2, Register(1, 7));
    var none: set<LinkId> := {};
    assert none + {7} == {7};
    assert w1.parties == Start().parties && w1.wires == map[7 := Connection(0, 1, true)];
    assert w2.parties == map[0 := Node(IDLE.(links := {7})), 1 := Node(IDLE)];
    assert w3.parties == Linked().parties;
    assert w3 == Linked();
    hide Next, Enabled, Calm;
    es := [Connect(7, 0, 1)];
    assert es[1..] == [];
    OneMore(Start(), es, Register(0, 7));
    es := es + [Register(0, 7)];
    OneMore(Start(), es, Register(1, 7));
    es := es + [Register(1, 7)];
  }

  // ---- A stale copy stored over a newer clip ----

  const A := Clip("a", 10, 97)
  const B := Clip("b", 100, 98)
  const HASH_A := Some(Letter(97).Digest())
  const HASH_B := Some(Letter(98).Digest())
  const LINKED := IDLE.(links := {7})

  function Both(d0: Device, d1: Device): map<PartyId, Party> {
    map[0 := Node(d0), 1 := Node(d1)]
  }

  lemma Singletons(m: Message, id: string)
    ensures [] + [m] == [m] && Remember([], id) == [id] && [B] + [A] == [B, A]
  {}

  /** Device 0 has stamped `A`. */
  const U1 := Linked().(parties := Both(LINKED.(lastHash := HASH_A), LINKED), staged := multiset{Staged(0, A)}, issued := {A})

  lemma Step1()
    ensures var e := Copy(0, Letter(97), 10, "a", "", ""); Enabled(Linked(), e) && Next(Linked(), e) == U1
  {
    assert Next(Linked(), Copy(0, Letter(97), 10, "a", "", "")).parties == U1.parties;
  }

  /** Device 1 has stamped `B`. */
  const U2 := U1.(parties := Both(LINKED.(lastHash := HASH_A), LINKED.(lastHash := HASH_B)),
                  staged := multiset{Staged(0, A), Staged(1, B)}, issued := {A, B})

  lemma Step2()
    ensures var e := Copy(1, Letter(98), 100, "b", "", ""); Enabled(U1, e) && Next(U1, e) == U2
  {
    ClipFacts();
    hide FormatInt, Join5;
    assert Next(U1, Copy(1, Letter(98), 100, "b", "", "")).parties == U2.parties;
    assert {A} + {B} == {A, B};
  }

  const HAS_B := LINKED.(lastHash := HASH_B, current := Some(B), seen := ["b"])

  /** Device 1 has stored and sent `B`. */
  const U3 := U2.(parties := Both(LINKED.(lastHash := HASH_A), HAS_B), staged := multiset{Staged(0, A)},
                  flight := multiset{Packet(7, 0, B)}, log := map[1 := [B]])

  /** Device p stores and sends what it staged, over the one connection. */
  lemma Publishes(w: World, p: PartyId, m: Message)
    requires Enabled(w, Publishing(Staged(p, m))) && w.wires == map[7 := Connection(0, 1, true)] && p in {0, 1}
    requires w.parties[p].device.links == {7}
    ensures var d := w.parties[p].device;
            Next(w, Publishing(Staged(p, m))) ==
            w.(parties := w.parties[p := Node(d.(current := Some(m), seen := Remember(d.seen, m.id)))],
               staged := w.staged - multiset{Staged(p, m)}, flight := w.flight + multiset{Packet(7, 1 - p, m)},
               log := w.log[p := (if p in w.log then w.log[p] else []) + [m]])
  {
    hide Remember;
    assert Sends(w, p, {7}, m) == {Packet(7, 1 - p, m)};
  }

  lemma Step3()
    ensures var e := Publishing(Staged(1, B)); Enabled(U2, e) && Calm(U2, e) && Next(U2, e) == U3
  {
    ClipFacts();
    hide FormatInt, Join5, Next;
    Publishes(U2, 1, B);
    var w := Next(U2, Publishing(Staged(1, B)));
    Singletons(B, "b");
    assert w.parties == U3.parties && w.staged == U3.staged && w.flight == U3.flight && w.log == U3.log;
  }

  /** It has arrived at device 0, which is decrypting it. */
  const U4 := U3.(parties := Both(LINKED.(lastHash := HASH_A, seen := ["b"]), HAS_B), flight := multiset{},
                  pending := multiset{Handling(0, 7, B)})

  lemma Step4()
    ensures var e := Deliver(Packet(7, 0, B)); Enabled(U3, e) && Next(U3, e) == U4
  {
    ClipFacts();
    hide FormatInt, Join5;
    var w := Next(U3, Deliver(Packet(7, 0, B)));
    Singletons(B, "b");
    assert w.parties == U4.parties && w.flight == U4.flight && w.pending == U4.pending;
  }

  /** Device 0 has adopted `B`. */
  const U5 := U4.(parties := Both(HAS_B, HAS_B), pending := multiset{}, log := map[1 := [B], 0 := [B]])

  /** Device 0 finishes handling what came over its only connection. */
  lemma Finishes(w: World, m: Message, plain: Bytes, c: Content)
    requires Enabled(w, Finish(Handling(0, 7, m))) && w.parties[0].device.links == {7} && Newer(m, w.parties[0].device.current)
    requires OpenClip(w.key, m) == Some(plain) && ContentFrom(m, plain) == Some(c)
    ensures var d := w.parties[0].device;
            Next(w, Finish(Handling(0, 7, m))) ==
            w.(parties := w.parties[0 := Node(d.(current := Some(m), lastHash := Some(c.Digest())))],
               pending := w.pending - multiset{Handling(0, 7, m)},
               log := w.log[0 := (if 0 in w.log then w.log[0] else []) + [m]])
  {
    hide OpenClip, ContentFrom, Newer;
    assert {7} - {7} == {};
    assert Sends(w, 0, {}, m) == {};
  }

  lemma Step5()
    ensures var e := Finish(Handling(0, 7, B)); Enabled(U4, e) && Next(U4, e) == U5
  {
    ClipFacts();
    hide FormatInt, Join5;
    assert OpenClip(0, B) == Some([98]) && ContentFrom(B, [98]) == Some(Letter(98));
    hide Next;
    Finishes(U4, B, [98], Letter(98));
    var w := Next(U4, Finish(Handling(0, 7, B)));
    Singletons(B, "b");
    assert w.parties == U5.parties && w.flight == U5.flight && w.pending == U5.pending && w.log == U5.log;
  }

  /** Device 0 has stored `A` over it and sent it. */
  const U6 := U5.(parties := Both(HAS_B.(seen := ["b", "a"], current := Some(A)), HAS_B), staged := multiset{},
                  flight := multiset{Packet(7, 1, A)}, log := map[1 := [B], 0 := [B, A]])

  lemma ClipFacts()
    ensures A.id == "a" && B.id == "b" && A.time == 10 && B.time == 100
  {}

  lemma RememberBoth()
    ensures Remember(["b"], "a") == ["b", "a"]
  {
    assert "a"[0] != "b"[0];
  }

  lemma Step6Uncalm()
    ensures var e := Publishing(Staged(0, A)); Enabled(U5, e) && !Calm(U5, e)
  {}

  lemma U5Fields()
    ensures U5.wires == map[7 := Connection(0, 1, true)] && U5.parties == Both(HAS_B, HAS_B)
    ensures U5.staged == multiset{Staged(0, A)} && U5.flight == multiset{} && U5.log == map[1 := [B], 0 := [B]]
  {
    hide A, B;
  }

  lemma U6Parties()
    ensures var d := HAS_B.(current := Some(A), seen := Remember(HAS_B.seen, A.id));
            Both(HAS_B, HAS_B)[0 := Node(d)] == U6.parties
  {
    RememberBoth();
    ClipFacts();
    hide Remember, A, B;
  }

  lemma U6Fields()
    ensures U6 == U5.(parties := U6.parties, staged := multiset{}, flight := multiset{Packet(7, 1, A)}, log := map[1 := [B], 0 := [B] + [A]])
  {
    hide A, B, U5;
    assert [B] + [A] == [B, A];
  }

  lemma Step6()
    requires Enabled(U5, Publishing(Staged(0, A)))
    ensures Next(U5, Publishing(Staged(0, A))) == U6
  {
    U5Fields();
    U6Parties();
    U6Fields();
    hide Remember, A, B, Enabled, Next, U5, U6;
    assert U5.parties[0].device == HAS_B;
    Publishes(U5, 0, A);
    assert map[1 := [B], 0 := [B]][0 := [B] + [A]] == map[1 := [B], 0 := [B] + [A]];
  }

  lemma Step7()
    ensures var e := Deliver(Packet(7, 1, A));
            && Enabled(U6, e)
            && var w := Next(U6, e);
               Quiet(w) && Joined(w, 0, 1, 7) && CurAt(w, 0) == Some(A) && CurAt(w, 1) == Some(B)
  {
    assert A.time < B.time;
    assert Next(U6, Deliver(Packet(7, 1, A))).flight == multiset{};
  }

  /** Device 0 stamps `A`; before it stores it, device 1's newer `B` arrives and is
      adopted; then device 0 stores `A` over it. The network ends quiet and split. */
  lemma UncalmRunDiverges() returns (es: seq<Event>)
    ensures Fresh(Start()) && Runs(Start(), es) && !CalmRun(Start(), es)
    ensures var w := After(Start(), es); Quiet(w) && Joined(w, 0, 1, 7) && CurAt(w, 0) != CurAt(w, 1)
  {
    hide Next, Enabled, Calm, Fresh, Linked, Quiet, Joined, CurAt;
    es := LinkedIsReachable();
    Step1(); OneMore(Start(), es, Copy(0, Letter(97), 10, "a", "", ""));
    es := es + [Copy(0, Letter(97), 10, "a", "", "")];
    Step2(); OneMore(Start(), es, Copy(1, Letter(98), 100, "b", "", ""));
    es := es + [Copy(1, Letter(98), 100, "b", "", "")];
    Step3(); OneMore(Start(), es, Publishing(Staged(1, B)));
    es := es + [Publishing(Staged(1, B))];
    Step4(); OneMore(Start(), es, Deliver(Packet(7, 0, B)));
    es := es + [Deliver(Packet(7, 0, B))];
    Step5(); OneMore(Start(), es, Finish(Handling(0, 7, B)));
    es := es + [Finish(Handling(0, 7, B))];
    Step6Uncalm(); Step6(); OneMore(Start(), es, Publishing(Staged(0, A)));
    es := es + [Publishing(Staged(0, A))];
    Step7(); OneMore(Start(), es, Deliver(Packet(7, 1, A)));
    es := es + [Deliver(Packet(7, 1, A))];
  }

  // ---- A clip dropped while paused ----

  /** Device 1 pauses. */
  const P1 := Linked().(parties := Both(LINKED, LINKED.(paused := true)))

  lemma Pause1()
    ensures Enabled(Linked(), SetPaused(1, true)) && Next(Linked(), SetPaused(1, true)) == P1
  {
    assert Next(Linked(), SetPaused(1, true)).parties == P1.parties;
  }

  const P2 := P1.(parties := Both(LINKED.(lastHash := HASH_A), LINKED.(paused := true)), staged := multiset{Staged(0, A)}, issued := {A})

  lemma Pause2()
    ensures var e := Copy(0, Letter(97), 10, "a", "", ""); Enabled(P1, e) && Next(P1, e) == P2
  {
    ClipFacts();
    hide FormatInt, Join5;
    assert Next(P1, Copy(0, Letter(97), 10, "a", "", "")).parties == P2.parties;
  }

  const HAS_A := LINKED.(lastHash := HASH_A, current := Some(A), seen := ["a"])
  const P3 := P2.(parties := Both(HAS_A, LINKED.(paused := true)), staged := multiset{},
                  flight := multiset{Packet(7, 1, A)}, log := map[0 := [A]])

  lemma Pause3()
    ensures var e := Publishing(Staged(0, A)); Enabled(P2, e) && Calm(P2, e) && Next(P2, e) == P3
  {
    ClipFacts();
    hide FormatInt, Join5;
    var w := Next(P2, Publishing(Staged(0, A)));
    Singletons(A, "a");
    assert Sends(P2, 0, {7}, A) == {Packet(7, 1, A)};
    assert w.parties == P3.parties && w.staged == P3.staged && w.flight == P3.flight && w.log == P3.log;
  }

  const P4 := P3.(flight := multiset{}, lost := {(7, 1, A)})

  lemma Pause4()
    ensures var e := Deliver(Packet(7, 1, A)); Enabled(P3, e) && Next(P3, e) == P4
  {
    var w := Next(P3, Deliver(Packet(7, 1, A)));
    assert w.parties == P4.parties && w.flight == P4.flight && w.lost == P4.lost;
  }

  /** Two devices that are not paused share a working connection both registered, and
      hold different clips. */
  predicate LinkedButApart(w: World) {
    && 0 in w.parties && 1 in w.parties && w.parties[0].Node? && w.parties[1].Node?
    && !w.parties[0].device.paused && !w.parties[1].device.paused
    && 7 in w.wires && w.wires[7] == Connection(0, 1, true) && 7 in Ends(w.parties[0]) && 7 in Ends(w.parties[1])
    && CurAt(w, 0) != CurAt(w, 1)
  }

  lemma Pause5()
    ensures var e := SetPaused(1, false);
            && Enabled(P4, e)
            && var w := Next(P4, e);
               Quiet(w) && LinkedButApart(w)
  {}

  /** A clip that arrives at a paused device is gone: un-pausing does not bring it back
      over the same connection, though nobody is paused and nothing is under way. */
  lemma PausedRunDiverges() returns (es: seq<Event>)
    ensures Fresh(Start()) && Runs(Start(), es) && CalmRun(Start(), es)
    ensures var w := After(Start(), es);
            Quiet(w) && LinkedButApart(w)
  {
    hide Next, Enabled, Fresh, Linked, Quiet, Newer, LinkedButApart;
    es := LinkedIsReachable();
    Pause1(); OneMore(Start(), es, SetPaused(1, true));
    es := es + [SetPaused(1, true)];
    Pause2(); OneMore(Start(), es, Copy(0, Letter(97), 10, "a", "", ""));
    es := es + [Copy(0, Letter(97), 10, "a", "", "")];
    Pause3(); OneMore(Start(), es, Publishing(Staged(0, A)));
    es := es + [Publishing(Staged(0, A))];
    Pause4(); OneMore(Start(), es, Deliver(Packet(7, 1, A)));
    es := es + [Deliver(Packet(7, 1, A))];
    Pause5(); OneMore(Start(), es, SetPaused(1, false));
    es := es + [SetPaused(1, false)];
  }
}
