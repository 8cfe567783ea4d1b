/** Rate limiting of failed sign-ins (internal/server/server.go). */
module Limiter {
  import opened Basics

  const MAX_FAILS := 10
  const FAIL_WINDOW := 15 * 60 * 1_000_000_000
  const MANY := 10000

  datatype Failure = Failure(count: nat, first: int)

  type Table = map<string, Failure>

  predicate Expired(f: Failure, now: int) {
    now - f.first > FAIL_WINDOW
  }

  // ---- The table ----

  function Unexpired(t: Table, now: int): Table {
    map k | k in t && !Expired(t[k], now) :: t[k]
  }

  /** Whether a key is blocked; an expired entry is dropped on the way. */
  function Check(t: Table, key: string, now: int): (Table, bool) {
    if key !in t then (t, false)
    else if Expired(t[key], now) then (t - {key}, false)
    else (t, t[key].count >= MAX_FAILS)
  }

  function Record(t: Table, key: string, now: int): Table {
    var kept := if |t| > MANY then Unexpired(t, now) else t;
    var f := if key in kept && !Expired(kept[key], now) then kept[key] else Failure(0, now);
    kept[key := f.(count := f.count + 1)]
  }

  class Limiter {
    var fails: Table

    constructor ()
      ensures fails == map[]
    {
      fails := map[];
    }

    method Blocked(key: string, now: int) returns (b: bool)
      modifies this
      ensures (fails, b) == Check(old(fails), key, now)
    {
      if key !in fails { return false; }
      if Expired(fails[key], now) {
        fails := fails - {key};
        return false;
      }
      b := fails[key].count >= MAX_FAILS;
    }

    /** Drop the expired entries, one key after another. */
    method CleanUp(now: int)
      modifies this
      ensures fails == Unexpired(old(fails), now)
    {
      var keys := fails.Keys;
      while keys != {}
        invariant keys <= old(fails).Keys
        invariant fails == map k | k in old(fails) && (k in keys || !Expired(old(fails)[k], now)) :: old(fails)[k]
        decreases |keys|
      {
        var k :| k in keys;
        if Expired(fails[k], now) { fails := fails - {k}; }
        keys := keys - {k};
      }
    }

    method Fail(key: string, now: int)
      modifies this
      ensures fails == Record(old(fails), key, now)
    {
      if |fails| > MANY { CleanUp(now); }
      if key !in fails || Expired(fails[key], now) { fails := fails[key := Failure(0, now)]; }
      fails := fails[key := Failure(fails[key].count + 1, fails[key].first)];
    }
  }

  // ---- Whole requests ----

  datatype Request =
    | Login(ip: string, user: string, accepted: bool)
    | Register(ip: string, badInvite: bool)

  function UserKey(user: string): string {
    "user:" + user
  }

  /** The table after a request handled at one moment, and the keys it recorded a failure for. */
  function Serve(t: Table, r: Request, now: int): (Table, seq<string>) {
    var (t1, b1) := Check(t, r.ip, now);
    if b1 then (t1, [])
    else
      match r
      case Register(ip, badInvite) => if badInvite then (Record(t1, ip, now), [ip]) else (t1, [])
      case Login(ip, user, accepted) =>
        var (t2, b2) := Check(t1, UserKey(user), now);
        if b2 || accepted then (t2, [])
        else (Record(Record(t2, ip, now), UserKey(user), now), [ip, UserKey(user)])
  }

  method ServeLogin(l: Limiter, ip: string, user: string, accepted: bool, now: int) returns (refused: bool)
    modifies l
    ensures l.fails == Serve(old(l.fails), Login(ip, user, accepted), now).0
    ensures refused <==> Check(old(l.fails), ip, now).1 || Check(old(l.fails), UserKey(user), now).1
  {
    refused := l.Blocked(ip, now);
    if !refused { refused := l.Blocked(UserKey(user), now); }
    if refused { return; }
    if !accepted {
      l.Fail(ip, now);
      l.Fail(UserKey(user), now);
    }
  }

  method ServeRegister(l: Limiter, ip: string, badInvite: bool, now: int) returns (refused: bool)
    modifies l
    ensures l.fails == Serve(old(l.fails), Register(ip, badInvite), now).0
    ensures refused <==> Check(old(l.fails), ip, now).1
  {
    refused := l.Blocked(ip, now);
    if !refused && badInvite { l.Fail(ip, now); }
  }

  // ---- A complete log, cut into windows ----

  /** The failures counted together: the first opens the window. */
  type Window = w: seq<int> | |w| > 0 witness [0]

  /** The windows of one key's failures, if nothing were ever forgotten. */
  function Windows(times: seq<int>): seq<Window> {
    if times == [] then []
    else
      var ws, t := Windows(times[..|times| - 1]), times[|times| - 1];
      if ws == [] || t - ws[|ws| - 1][0] > FAIL_WINDOW then ws + [[t]]
      else ws[..|ws| - 1] + [ws[|ws| - 1] + [t]]
  }

  /** How many of the times lie in the closed interval from a to b. */
  function Within(times: seq<int>, a: int, b: int): (n: nat)
    ensures n <= |times|
  {
    if times == [] then 0
    else Within(times[..|times| - 1], a, b) + (if a <= times[|times| - 1] <= b then 1 else 0)
  }

  function WithinAll(ws: seq<Window>, a: int, b: int): nat {
    if ws == [] then 0 else WithinAll(ws[..|ws| - 1], a, b) + Within(ws[|ws| - 1], a, b)
  }

  /** At most `cap` failures, none later than the first by more than the span. */
  predicate Full(w: Window, cap: nat) {
    |w| <= cap && forall j | 0 <= j < |w| :: 0 <= w[j] - w[0] <= FAIL_WINDOW
  }

  /** Such windows, further apart than the span. */
  predicate Spaced(ws: seq<Window>, cap: nat) {
    && (forall i | 0 <= i < |ws| :: Full(ws[i], cap))
    && (forall i | 0 < i < |ws| :: ws[i][0] - ws[i - 1][0] > FAIL_WINDOW)
  }

  lemma {:induction false} NoneWithin(times: seq<int>, a: int, b: int)
    requires forall j | 0 <= j < |times| :: !(a <= times[j] <= b)
    ensures Within(times, a, b) == 0
  {
    if times != [] { NoneWithin(times[..|times| - 1], a, b); }
  }

  /** A window whose first failure is too early contributes one less than it holds. */
  lemma {:induction false} FirstMissing(times: seq<int>, a: int, b: int)
    requires times != [] && times[0] < a
    ensures Within(times, a, b) <= |times| - 1
  {
    if |times| > 1 { FirstMissing(times[..|times| - 1], a, b); }
  }

  lemma {:induction false} StartsGrow(ws: seq<Window>, i: nat, j: nat, cap: nat)
    requires Spaced(ws, cap) && i < j < |ws|
    ensures ws[j][0] - ws[i][0] > FAIL_WINDOW * (j - i)
    decreases j
  {
    if i < j - 1 { StartsGrow(ws, i, j - 1, cap); }
  }

  lemma {:induction false} EarlyWindows(ws: seq<Window>, a: int, b: int, cap: nat)
    requires Spaced(ws, cap) && forall i | 0 <= i < |ws| :: ws[i][0] + FAIL_WINDOW < a
    ensures WithinAll(ws, a, b) == 0
  {
    if ws != [] {
      EarlyWindows(ws[..|ws| - 1], a, b, cap);
      NoneWithin(ws[|ws| - 1], a, b);
    }
  }

  lemma PrefixSpaced(ws: seq<Window>, n: nat, cap: nat)
    requires Spaced(ws, cap) && n <= |ws|
    ensures Spaced(ws[..n], cap)
  {
    hide Full;
  }

  lemma WindowsBefore(ws: seq<Window>, a: int, cap: nat)
    requires Spaced(ws, cap) && |ws| >= 2 && ws[|ws| - 1][0] <= a + FAIL_WINDOW
    ensures ws[|ws| - 2][0] < a
    ensures forall i | 0 <= i < |ws| - 2 :: ws[i][0] + FAIL_WINDOW < a
  {
    hide Full;
    forall i | 0 <= i < |ws| - 2 ensures ws[i][0] + FAIL_WINDOW < a { StartsGrow(ws, i, |ws| - 1, cap); }
  }

  lemma {:induction false} LastTwo(early: seq<Window>, before: Window, last: Window, a: int, cap: nat)
    requires Spaced(early + [before, last], cap) && last[0] <= a + FAIL_WINDOW
    ensures WithinAll(early + [before, last], a, a + FAIL_WINDOW) <= 2 * cap - 1
  {
    var b, ws := a + FAIL_WINDOW, early + [before, last];
    WindowsBefore(ws, a, cap);
    assert ws[..|ws| - 1] == early + [before] && (early + [before])[..|early|] == early && ws[..|early|] == early;
    assert WithinAll(ws, a, b) == WithinAll(early, a, b) + Within(before, a, b) + Within(last, a, b);
    assert Full(ws[|ws| - 2], cap) && Full(ws[|ws| - 1], cap);
    PrefixSpaced(ws, |early|, cap);
    assert forall i | 0 <= i < |early| :: early[i] == ws[i];
    hide Within, WithinAll, Spaced;
    EarlyWindows(early, a, b, cap);
    FirstMissing(before, a, b);
  }

  /** Two neighbouring windows at most meet an interval as long as a window, and the
      earlier one then without its first failure. */
  lemma {:induction false} AtMostTwoWindows(ws: seq<Window>, a: int, cap: nat)
    requires Spaced(ws, cap) && cap >= 1
    ensures WithinAll(ws, a, a + FAIL_WINDOW) <= 2 * cap - 1
    decreases |ws|
  {
    var b := a + FAIL_WINDOW;
    if ws != [] {
      var n := |ws| - 1;
      assert Full(ws[n], cap);
      hide Within, Full;
      if ws[n][0] > b {
        InOrder(ws[n], cap);
        NoneWithin(ws[n], a, b);
        PrefixSpaced(ws, n, cap);
        AtMostTwoWindows(ws[..n], a, cap);
      } else if n > 0 {
        assert ws == ws[..n - 1] + [ws[n - 1], ws[n]];
        LastTwo(ws[..n - 1], ws[n - 1], ws[n], a, cap);
      } else {
        assert WithinAll(ws, a, b) == WithinAll([], a, b) + Within(ws[0], a, b) <= |ws[0]| by { assert ws[..0] == []; }
        AtMostCap(ws[0], cap);
      }
    }
  }

  lemma InOrder(w: Window, cap: nat)
    requires Full(w, cap)
    ensures forall j | 0 <= j < |w| :: w[j] >= w[0]
  {}

  lemma AtMostCap(w: Window, cap: nat)
    requires Full(w, cap)
    ensures |w| <= cap
  {}

  // ---- Runs ----

  datatype World = World(table: Table, log: seq<(string, int)>, now: int)

  function TimesOf(log: seq<(string, int)>, key: string): seq<int> {
    if log == [] then []
    else
      var rest, e := TimesOf(log[..|log| - 1], key), log[|log| - 1];
      if e.0 == key then rest + [e.1] else rest
  }

  function Noted(keys: seq<string>, now: int): (log: seq<(string, int)>)
    ensures |log| == |keys|
  {
    seq(|keys|, i requires 0 <= i < |keys| => (keys[i], now))
  }

  function Next(w: World, r: Request, now: int): World {
    var (t, keys) := Serve(w.table, r, now);
    World(t, w.log + Noted(keys, now), now)
  }

  /** Time does not run backwards, and an address is not mistaken for a user name. */
  predicate Enabled(w: World, r: Request, now: int) {
    now >= w.now && (r.Login? ==> r.ip != UserKey(r.user))
  }

  predicate Runs(w: World, rs: seq<(Request, int)>)
    decreases |rs|
  {
    rs == [] || (Enabled(w, rs[0].0, rs[0].1) && Runs(Next(w, rs[0].0, rs[0].1), rs[1..]))
  }

  function After(w: World, rs: seq<(Request, int)>): World
    decreases |rs|
  {
    if rs == [] then w else After(Next(w, rs[0].0, rs[0].1), rs[1..])
  }

  function Fresh(now: int): World {
    World(map[], [], now)
  }

  /** What the table holds for a key is its last window, unless that one has expired. */
  predicate Agrees(t: Table, key: string, ws: seq<Window>, now: int) {
    if key in t then ws != [] && t[key] == Failure(|ws[|ws| - 1]|, ws[|ws| - 1][0])
    else ws != [] ==> now - ws[|ws| - 1][0] > FAIL_WINDOW
  }

  predicate KeyOk(t: Table, log: seq<(string, int)>, key: string, now: int, cap: nat) {
    && Agrees(t, key, Windows(TimesOf(log, key)), now)
    && Spaced(Windows(TimesOf(log, key)), cap)
    && Starts(Windows(TimesOf(log, key)), now)
  }

  ghost predicate Inv(w: World) {
    forall key :: KeyOk(w.table, w.log, key, w.now, MAX_FAILS)
  }

  lemma CheckKeeps(t: Table, log: seq<(string, int)>, asked: string, now: int, key: string, cap: nat)
    requires KeyOk(t, log, key, now, cap)
    ensures KeyOk(Check(t, asked, now).0, log, key, now, cap)
  {}

  /** Whether or not the table was cleaned up: the failed key is counted, and of the
      others at most expired entries are gone. */
  lemma RecordShape(t: Table, failed: string, now: int)
    ensures var t' := Record(t, failed, now);
            && failed in t'
            && t'[failed] == (if failed in t && !Expired(t[failed], now) then Failure(t[failed].count + 1, t[failed].first) else Failure(1, now))
            && (forall k | k != failed && k in t' :: k in t && t'[k] == t[k])
            && (forall k | k in t && !Expired(t[k], now) :: k in t')
  {}

  lemma RecordOthers(t: Table, log: seq<(string, int)>, failed: string, now: int, key: string, cap: nat)
    requires KeyOk(t, log, key, now, cap) && key != failed
    ensures KeyOk(Record(t, failed, now), log + [(failed, now)], key, now, cap)
  {
    RecordShape(t, failed, now);
    hide Record, Windows, Spaced;
    assert (log + [(failed, now)])[..|log|] == log;
    assert TimesOf(log + [(failed, now)], key) == TimesOf(log, key);
  }

  /** The entry of a key does not count `cap` failures yet. */
  predicate HasRoom(t: Table, key: string, now: int, cap: nat) {
    key in t && !Expired(t[key], now) ==> t[key].count < cap
  }

  lemma RecordFailed(t: Table, log: seq<(string, int)>, key: string, now: int, cap: nat)
    requires KeyOk(t, log, key, now, cap) && HasRoom(t, key, now, cap) && cap >= 1
    ensures KeyOk(Record(t, key, now), log + [(key, now)], key, now, cap)
  {
    RecordShape(t, key, now);
    hide Record, Windows, Spaced;
    var times := TimesOf(log, key);
    assert (log + [(key, now)])[..|log|] == log;
    assert TimesOf(log + [(key, now)], key) == times + [now];
    hide TimesOf;
    WindowsGrow(times, now, cap);
  }

  predicate Starts(ws: seq<Window>, now: int) {
    forall w | w in ws :: w[0] <= now
  }

  predicate Room(ws: seq<Window>, now: int, cap: nat) {
    ws == [] || now - ws[|ws| - 1][0] > FAIL_WINDOW || |ws[|ws| - 1]| < cap
  }

  lemma WindowsGrow(times: seq<int>, now: int, cap: nat)
    requires Spaced(Windows(times), cap) && Starts(Windows(times), now) && Room(Windows(times), now, cap) && cap >= 1
    ensures var ws, ws' := Windows(times), Windows(times + [now]);
            && Spaced(ws', cap) && ws' != [] && Starts(ws', now)
            && if ws == [] || now - ws[|ws| - 1][0] > FAIL_WINDOW
               then ws'[|ws'| - 1] == [now]
               else |ws'[|ws'| - 1]| == |ws[|ws| - 1]| + 1 && ws'[|ws'| - 1][0] == ws[|ws| - 1][0]
  {
    hide Windows, Spaced;
    WindowsNext(times, now);
    var ws := Windows(times);
    if ws != [] && now - ws[|ws| - 1][0] <= FAIL_WINDOW {
      LastGrows(ws, ws[|ws| - 1] + [now], now, cap);
    } else {
      Opens(ws, now, cap);
    }
  }

  lemma LastGrows(ws: seq<Window>, more: Window, now: int, cap: nat)
    requires Spaced(ws, cap) && Starts(ws, now) && ws != [] && more == ws[|ws| - 1] + [now]
    requires |ws[|ws| - 1]| < cap && now - ws[|ws| - 1][0] <= FAIL_WINDOW
    ensures Spaced(ws[..|ws| - 1] + [more], cap) && Starts(ws[..|ws| - 1] + [more], now)
  {
    var last := ws[|ws| - 1];
    assert Full(last, cap) && last in ws;
    assert more[0] == last[0] && Full(more, cap);
    hide Full;
    var ws' := ws[..|ws| - 1] + [more];
    assert forall i | 0 <= i < |ws| :: ws'[i][0] == ws[i][0] && Full(ws'[i], cap);
  }

  lemma Opens(ws: seq<Window>, now: int, cap: nat)
    requires cap >= 1 && Spaced(ws, cap) && Starts(ws, now) && (ws != [] ==> now - ws[|ws| - 1][0] > FAIL_WINDOW)
    ensures Spaced(ws + [[now]], cap) && Starts(ws + [[now]], now)
  {
    assert Full([now], cap);
    hide Full;
  }

  /** Recording a failure for a key with room for it. */
  lemma RecordKeeps(t: Table, log: seq<(string, int)>, failed: string, now: int, key: string, cap: nat)
    requires KeyOk(t, log, key, now, cap) && HasRoom(t, failed, now, cap) && cap >= 1
    ensures KeyOk(Record(t, failed, now), log + [(failed, now)], key, now, cap)
  {
    hide Record, KeyOk, HasRoom;
    if key == failed { RecordFailed(t, log, key, now, cap); } else { RecordOthers(t, log, failed, now, key, cap); }
  }

  lemma TimePasses(t: Table, log: seq<(string, int)>, before: int, now: int, key: string, cap: nat)
    requires KeyOk(t, log, key, before, cap) && now >= before
    ensures KeyOk(t, log, key, now, cap)
  {}

  lemma CheckAgain(t: Table, k: string, k': string, now: int)
    ensures Check(Check(t, k', now).0, k, now).1 == Check(t, k, now).1
  {}

  lemma RecordOther(t: Table, k: string, k': string, now: int)
    requires k != k'
    ensures Check(Record(t, k, now), k', now).1 == Check(t, k', now).1
  {}

  lemma UnblockedHasRoom(t: Table, key: string, now: int)
    ensures !Check(t, key, now).1 <==> HasRoom(t, key, now, MAX_FAILS)
  {}

  lemma LoginKeeps(t: Table, log: seq<(string, int)>, ip: string, user: string, now: int, key: string)
    requires KeyOk(t, log, key, now, MAX_FAILS) && ip != UserKey(user)
    requires !Check(t, ip, now).1 && !Check(t, UserKey(user), now).1
    ensures KeyOk(Record(Record(t, ip, now), UserKey(user), now), log + Noted([ip, UserKey(user)], now), key, now, MAX_FAILS)
  {
    hide KeyOk, Check, Record, UserKey, HasRoom;
    UnblockedHasRoom(t, ip, now);
    RecordKeeps(t, log, ip, now, key, MAX_FAILS);
    RecordOther(t, ip, UserKey(user), now);
    UnblockedHasRoom(Record(t, ip, now), UserKey(user), now);
    RecordKeeps(Record(t, ip, now), log + [(ip, now)], UserKey(user), now, key, MAX_FAILS);
    assert log + Noted([ip, UserKey(user)], now) == log + [(ip, now)] + [(UserKey(user), now)];
  }

  lemma ServeKeeps(t: Table, log: seq<(string, int)>, r: Request, now: int, key: string)
    requires KeyOk(t, log, key, now, MAX_FAILS) && (r.Login? ==> r.ip != UserKey(r.user))
    ensures KeyOk(Serve(t, r, now).0, log + Noted(Serve(t, r, now).1, now), key, now, MAX_FAILS)
  {
    hide KeyOk, Check, Record, UserKey, HasRoom;
    var (t1, b1) := Check(t, r.ip, now);
    CheckKeeps(t, log, r.ip, now, key, MAX_FAILS);
    CheckAgain(t, r.ip, r.ip, now);
    UnblockedHasRoom(t1, r.ip, now);
    assert log + Noted([], now) == log;
    match r
    case Register(ip, badInvite) =>
      if !b1 && badInvite {
        RecordKeeps(t1, log, ip, now, key, MAX_FAILS);
        assert log + Noted([ip], now) == log + [(ip, now)];
      }
    case Login(ip, user, accepted) =>
      var (t2, b2) := Check(t1, UserKey(user), now);
      CheckKeeps(t1, log, UserKey(user), now, key, MAX_FAILS);
      CheckAgain(t1, ip, UserKey(user), now);
      CheckAgain(t1, UserKey(user), UserKey(user), now);
      if !b1 && !b2 && !accepted { LoginKeeps(t2, log, ip, user, now, key); }
  }

  lemma {:induction false} RunKeeps(w: World, rs: seq<(Request, int)>)
    requires Inv(w) && Runs(w, rs)
    ensures Inv(After(w, rs))
    decreases |rs|
  {
    if rs != [] {
      var r, now := rs[0].0, rs[0].1;
      forall key ensures KeyOk(Next(w, r, now).table, Next(w, r, now).log, key, now, MAX_FAILS) {
        TimePasses(w.table, w.log, w.now, now, key, MAX_FAILS);
        ServeKeeps(w.table, w.log, r, now, key);
        hide KeyOk, Serve;
      }
      RunKeeps(Next(w, r, now), rs[1..]);
    }
  }

  lemma WithinLast(ws: seq<Window>, w: Window, a: int, b: int)
    ensures WithinAll(ws + [w], a, b) == WithinAll(ws, a, b) + Within(w, a, b)
  {
    assert (ws + [w])[..|ws|] == ws;
  }

  lemma WithinNext(times: seq<int>, t: int, a: int, b: int)
    ensures Within(times + [t], a, b) == Within(times, a, b) + (if a <= t <= b then 1 else 0)
  {
    assert (times + [t])[..|times|] == times;
  }

  /** A failure opens a window or joins the last one. */
  lemma WindowsNext(times: seq<int>, t: int)
    ensures var ws := Windows(times);
            Windows(times + [t]) ==
            if ws == [] || t - ws[|ws| - 1][0] > FAIL_WINDOW then ws + [[t]]
            else ws[..|ws| - 1] + [ws[|ws| - 1] + [t]]
  {
    assert (times + [t])[..|times|] == times;
  }

  lemma JoinedWithin(ws: seq<Window>, t: int, a: int, b: int)
    requires ws != []
    ensures WithinAll(ws[..|ws| - 1] + [ws[|ws| - 1] + [t]], a, b) == WithinAll(ws, a, b) + (if a <= t <= b then 1 else 0)
  {
    var early, last: Window := ws[..|ws| - 1], ws[|ws| - 1];
    assert ws == early + [last];
    hide WithinAll, Within;
    WithinLast(early, last + [t], a, b);
    WithinLast(early, last, a, b);
    WithinNext(last, t, a, b);
  }

  lemma OpenedWithin(ws: seq<Window>, t: int, a: int, b: int)
    ensures WithinAll(ws + [[t]], a, b) == WithinAll(ws, a, b) + (if a <= t <= b then 1 else 0)
  {
    NoneWithin([], a, b);
    assert [t] == [] + [t];
    hide WithinAll, Within;
    WithinLast(ws, [t], a, b);
    WithinNext([], t, a, b);
  }

  lemma WithinOneMore(rest: seq<int>, t: int, a: int, b: int)
    requires WithinAll(Windows(rest), a, b) == Within(rest, a, b)
    ensures WithinAll(Windows(rest + [t]), a, b) == Within(rest + [t], a, b)
  {
    hide Windows, WithinAll, Within;
    WithinNext(rest, t, a, b);
    WindowsNext(rest, t);
    var ws := Windows(rest);
    if ws == [] || t - ws[|ws| - 1][0] > FAIL_WINDOW { OpenedWithin(ws, t, a, b); } else { JoinedWithin(ws, t, a, b); }
  }

  lemma NothingWithin(a: int, b: int)
    ensures WithinAll(Windows([]), a, b) == Within([], a, b)
  {}

  lemma {:induction false} WithinWindows(times: seq<int>, a: int, b: int)
    ensures WithinAll(Windows(times), a, b) == Within(times, a, b)
  {
    hide Windows, WithinAll, Within;
    if times == [] {
      NothingWithin(a, b);
    } else {
      var rest, t := times[..|times| - 1], times[|times| - 1];
      assert times == rest + [t];
      WithinWindows(rest, a, b);
      WithinOneMore(rest, t, a, b);
    }
  }

  /** In every run, of any number of requests from anywhere, no key has more than nineteen
      recorded failures in any fifteen minutes, and no entry ever counts more than ten. */
  lemma FailuresAreBounded(start: int, rs: seq<(Request, int)>, key: string, a: int)
    requires Runs(Fresh(start), rs)
    ensures var w := After(Fresh(start), rs);
            && Within(TimesOf(w.log, key), a, a + FAIL_WINDOW) <= 19
            && (key in w.table ==> 1 <= w.table[key].count <= MAX_FAILS)
  {
    RunKeeps(Fresh(start), rs);
    var w := After(Fresh(start), rs);
    assert KeyOk(w.table, w.log, key, w.now, MAX_FAILS);
    AtMostTwoWindows(Windows(TimesOf(w.log, key)), a, MAX_FAILS);
    WithinWindows(TimesOf(w.log, key), a, a + FAIL_WINDOW);
  }

  /** Dropping entries loses nothing that matters: at any later moment a key is blocked
      exactly when the complete log says so. */
  lemma BlockedExactly(start: int, rs: seq<(Request, int)>, key: string, now: int)
    requires Runs(Fresh(start), rs) && now >= After(Fresh(start), rs).now
    ensures var w := After(Fresh(start), rs);
            var ws := Windows(TimesOf(w.log, key));
            Check(w.table, key, now).1 <==>
            ws != [] && now - ws[|ws| - 1][0] <= FAIL_WINDOW && |ws[|ws| - 1]| == MAX_FAILS
  {
    RunKeeps(Fresh(start), rs);
    var w := After(Fresh(start), rs);
    assert KeyOk(w.table, w.log, key, w.now, MAX_FAILS);
  }

  // ---- The bound is reached ----

  function Guesses(ip: string, now: int, n: nat): seq<(Request, int)> {
    seq(n, _ => (Register(ip, true), now))
  }

  /** One wrong invite from an address that is alone in the table and not blocked. */
  lemma OneGuess(w: World, ip: string, now: int)
    requires w.now <= now && w.table.Keys <= {ip} && !Check(w.table, ip, now).1
    ensures var w1 := Next(w, Register(ip, true), now);
            && Enabled(w, Register(ip, true), now) && w1.now == now && TimesOf(w1.log, ip) == TimesOf(w.log, ip) + [now]
            && w1.table == map[ip := if ip in w.table && !Expired(w.table[ip], now) then Failure(w.table[ip].count + 1, w.table[ip].first) else Failure(1, now)]
  {
    assert w.log + Noted([ip], now) == w.log + [(ip, now)];
    assert (w.log + [(ip, now)])[..|w.log|] == w.log;
    assert ip in w.table ==> w.table == map[ip := w.table[ip]];
    assert |w.table| <= 1 by {
      assert w.table.Keys == {} || w.table.Keys == {ip};
      assert |w.table| == |w.table.Keys|;
    }
  }

  /** Wrong invites from one address while it has attempts left. */
  lemma {:induction false} Burst(w: World, ip: string, now: int, n: nat)
    requires w.table.Keys == {ip} && !Expired(w.table[ip], now) && w.table[ip].count + n <= MAX_FAILS && w.now <= now
    ensures Runs(w, Guesses(ip, now, n))
    ensures var w' := After(w, Guesses(ip, now, n));
            && w'.table == map[ip := Failure(w.table[ip].count + n, w.table[ip].first)] && w.now <= w'.now <= now
            && TimesOf(w'.log, ip) == TimesOf(w.log, ip) + seq(n, _ => now)
    decreases n
  {
    var rs := Guesses(ip, now, n);
    if n > 0 {
      OneGuess(w, ip, now);
      hide Next, Enabled, TimesOf;
      var w1 := Next(w, Register(ip, true), now);
      assert rs[0] == (Register(ip, true), now) && rs[1..] == Guesses(ip, now, n - 1);
      Burst(w1, ip, now, n - 1);
      assert TimesOf(w.log, ip) + [now] + seq(n - 1, _ => now) == TimesOf(w.log, ip) + seq(n, _ => now);
    }
  }

  lemma {:induction false} RunOn(w: World, rs: seq<(Request, int)>, more: seq<(Request, int)>)
    requires Runs(w, rs) && Runs(After(w, rs), more)
    ensures Runs(w, rs + more) && After(w, rs + more) == After(After(w, rs), more)
    decreases |rs|
  {
    hide Enabled, Next;
    if rs == [] {
      assert rs + more == more;
    } else {
      RunOn(Next(w, rs[0].0, rs[0].1), rs[1..], more);
      assert (rs + more)[1..] == rs[1..] + more;
    }
  }

  lemma {:induction false} WithinAppend(s: seq<int>, x: int, n: nat, a: int, b: int)
    requires a <= x <= b
    ensures Within(s + seq(n, _ => x), a, b) == Within(s, a, b) + n
    decreases n
  {
    var t := s + seq(n, _ => x);
    if n == 0 {
      assert t == s;
    } else {
      assert t[..|t| - 1] == s + seq(n - 1, _ => x);
      WithinAppend(s, x, n - 1, a, b);
    }
  }

  /** One wrong invite, then nine more at the last moment of its window, then one as soon
      as that has passed and nine more with it. */
  function Worst(ip: string): seq<(Request, int)> {
    [(Register(ip, true), 0)] + Guesses(ip, FAIL_WINDOW, 9) + ([(Register(ip, true), FAIL_WINDOW + 1)] + Guesses(ip, FAIL_WINDOW + 1, 9))
  }

  lemma OneRequest(w: World, r: Request, now: int)
    requires Enabled(w, r, now)
    ensures Runs(w, [(r, now)]) && After(w, [(r, now)]) == Next(w, r, now)
  {
    hide Enabled, Next;
    var one := [(r, now)];
    assert one[1..] == [] && one[0] == (r, now);
    assert After(Next(w, r, now), []) == Next(w, r, now);
  }

  /** A first failure, and nine more while its window lasts. */
  lemma TenInARow(w: World, ip: string, first: int, now: int)
    requires w.now <= first <= now <= first + FAIL_WINDOW && w.table.Keys <= {ip}
    requires ip in w.table ==> Expired(w.table[ip], first)
    ensures var rs := [(Register(ip, true), first)] + Guesses(ip, now, 9);
            && Runs(w, rs) && After(w, rs).table == map[ip := Failure(10, first)] && After(w, rs).now <= now
            && TimesOf(After(w, rs).log, ip) == TimesOf(w.log, ip) + [first] + seq(9, _ => now)
  {
    hide Next, Runs, After, TimesOf, Enabled, Guesses;
    OneGuess(w, ip, first);
    OneRequest(w, Register(ip, true), first);
    Burst(Next(w, Register(ip, true), first), ip, now, 9);
    RunOn(w, [(Register(ip, true), first)], Guesses(ip, now, 9));
  }

  /** Nineteen is reached: fixed windows allow nine and ten. */
  lemma NineteenHappens(ip: string)
    ensures Runs(Fresh(0), Worst(ip))
    ensures Within(TimesOf(After(Fresh(0), Worst(ip)).log, ip), FAIL_WINDOW, 2 * FAIL_WINDOW) == 19
  {
    hide Runs, After;
    var w0 := Fresh(0);
    TenInARow(w0, ip, 0, FAIL_WINDOW);
    var rs := [(Register(ip, true), 0)] + Guesses(ip, FAIL_WINDOW, 9);
    var w := After(w0, rs);
    TenInARow(w, ip, FAIL_WINDOW + 1, FAIL_WINDOW + 1);
    RunOn(w0, rs, [(Register(ip, true), FAIL_WINDOW + 1)] + Guesses(ip, FAIL_WINDOW + 1, 9));
    CountNineteen();
    assert TimesOf(w0.log, ip) + [0] == [0];
  }

  lemma CountNineteen()
    ensures Within([0] + seq(9, _ => FAIL_WINDOW) + [FAIL_WINDOW + 1] + seq(9, _ => FAIL_WINDOW + 1), FAIL_WINDOW, 2 * FAIL_WINDOW) == 19
  {
    var a, b := FAIL_WINDOW, 2 * FAIL_WINDOW;
    assert [] + [0] == [0];
    NoneWithin([0], a, b);
    hide Within;
    WithinAppend([0], a, 9, a, b);
    WithinNext([0] + seq(9, _ => a), a + 1, a, b);
    WithinAppend([0] + seq(9, _ => a) + [a + 1], a + 1, 9, a, b);
  }

  // ---- What counts and what is blocked ----

  /** The request is answered without being looked at. */
  predicate TurnedAway(t: Table, r: Request, now: int) {
    Check(t, r.ip, now).1 || (r.Login? && Check(t, UserKey(r.user), now).1)
  }

  /** A request that is looked at and fails counts once against its address and, if it is a
      login, once against the name; one that succeeds or is turned away counts against
      nobody. */
  lemma CountsExactly(t: Table, r: Request, now: int)
    requires r.Login? ==> r.ip != UserKey(r.user)
    ensures var keys := Serve(t, r, now).1;
            var fails := if r.Login? then !r.accepted else r.badInvite;
            && (keys == [] <==> TurnedAway(t, r, now) || !fails)
            && (keys != [] ==> forall key :: key in keys <==> key == r.ip || (r.Login? && key == UserKey(r.user)))
            && forall i, j | 0 <= i < j < |keys| :: keys[i] != keys[j]
  {}

  /** Ten wrong passwords for a name, from whatever addresses, none of which is blocked. */
  function Wrong(ips: seq<string>, user: string, now: int): seq<(Request, int)> {
    seq(|ips|, i requires 0 <= i < |ips| => (Login(ips[i], user, false), now))
  }

  lemma WrongOnce(w: World, ip: string, user: string, now: int, n: nat)
    requires w.now <= now && n < MAX_FAILS && ip != UserKey(user) && !Check(w.table, ip, now).1 && |w.table| + 2 < MANY
    requires if n == 0 then UserKey(user) !in w.table else UserKey(user) in w.table && w.table[UserKey(user)] == Failure(n, now)
    ensures var w' := Next(w, Login(ip, user, false), now);
            && Enabled(w, Login(ip, user, false), now) && w'.now == now && |w'.table| <= |w.table| + 2
            && UserKey(user) in w'.table && w'.table[UserKey(user)] == Failure(n + 1, now)
            && (forall k | k != ip && k != UserKey(user) && k in w'.table :: k in w.table && w'.table[k] == w.table[k])
  {
    var (t1, b1) := Check(w.table, ip, now);
    var (t2, b2) := Check(t1, UserKey(user), now);
    assert |t1| <= |w.table| && |t2| <= |t1|;
    RecordSmall(t2, ip, now);
    RecordSmall(Record(t2, ip, now), UserKey(user), now);
  }

  lemma RecordSmall(t: Table, key: string, now: int)
    requires |t| <= MANY
    ensures var t' := Record(t, key, now);
            && |t'| <= |t| + 1 && key in t'
            && t'[key] == (if key in t && !Expired(t[key], now) then Failure(t[key].count + 1, t[key].first) else Failure(1, now))
            && forall k | k != key :: (k in t' <==> k in t) && (k in t ==> t'[k] == t[k])
  {
    var t' := Record(t, key, now);
    assert t'.Keys == t.Keys + {key};
  }

  predicate Counted(w: World, user: string, n: nat, now: int) {
    if n == 0 then UserKey(user) !in w.table else UserKey(user) in w.table && w.table[UserKey(user)] == Failure(n, now)
  }

  predicate NewAddresses(w: World, ips: seq<string>, user: string) {
    && (forall i | 0 <= i < |ips| :: ips[i] !in w.table && ips[i] != UserKey(user))
    && forall i, j | 0 <= i < j < |ips| :: ips[i] != ips[j]
  }

  lemma {:induction false} WrongRun(w: World, ips: seq<string>, user: string, now: int, n: nat)
    requires w.now <= now && n + |ips| <= MAX_FAILS && |w.table| + 2 * |ips| < MANY
    requires Counted(w, user, n, now) && NewAddresses(w, ips, user)
    ensures Runs(w, Wrong(ips, user, now)) && Counted(After(w, Wrong(ips, user, now)), user, n + |ips|, now)
    decreases |ips|
  {
    var rs := Wrong(ips, user, now);
    if ips != [] {
      WrongOnce(w, ips[0], user, now, n);
      hide Next, Enabled;
      var w' := Next(w, Login(ips[0], user, false), now);
      assert rs[0] == (Login(ips[0], user, false), now) && rs[1..] == Wrong(ips[1..], user, now);
      WrongRun(w', ips[1..], user, now, n + 1);
    }
  }

  /** Guessing from many addresses does not help: once ten wrong passwords have been tried
      for a name, each from an address of its own, every login for it from anywhere is turned
      away, right or wrong, until the window has passed; after nine, or afterwards, none is
      because of the name. */
  lemma TenWrongBlockTheName(ips: seq<string>, user: string, now: int, later: int)
    requires NewAddresses(Fresh(now), ips, user) && |ips| <= 10 && now <= later
    ensures Runs(Fresh(now), Wrong(ips, user, now))
    ensures var t := After(Fresh(now), Wrong(ips, user, now)).table;
            && (Check(t, UserKey(user), later).1 <==> |ips| == 10 && later <= now + 15 * 60 * 1_000_000_000)
            && (|ips| == 10 && later <= now + 15 * 60 * 1_000_000_000 ==>
                  forall ip, accepted :: TurnedAway(t, Login(ip, user, accepted), later))
  {
    WrongRun(Fresh(now), ips, user, now, 0);
  }
}
