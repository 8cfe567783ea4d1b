/** The limiter under requests that overlap: looking a key up and charging it are two lock
    sections, and between them other requests come and go (internal/server/server.go). */
module LimiterRaces {
  import opened Basics
  import opened Limiter

  /** `open` holds a key once for every request that has been let through for it and has
      neither charged it nor finished. */
  datatype Race = Race(table: Table, log: seq<(string, int)>, now: int, open: multiset<string>)

  datatype Event =
    | Asks(key: string, now: int)
    | Charges(key: string, now: int)
    | Finishes(key: string)

  predicate Enabled(w: Race, e: Event) {
    match e
    case Asks(key, now) => now >= w.now
    case Charges(key, now) => now >= w.now && key in w.open
    case Finishes(key) => key in w.open
  }

  function Next(w: Race, e: Event): Race {
    match e
    case Asks(key, now) =>
      var (t, blocked) := Check(w.table, key, now);
      Race(t, w.log, now, if blocked then w.open else w.open + multiset{key})
    case Charges(key, now) => Race(Record(w.table, key, now), w.log + [(key, now)], now, w.open - multiset{key})
    case Finishes(key) => w.(open := w.open - multiset{key})
  }

  predicate Runs(w: Race, es: seq<Event>)
    decreases |es|
  {
    es == [] || (Enabled(w, es[0]) && Runs(Next(w, es[0]), es[1..]))
  }

  function After(w: Race, es: seq<Event>): Race
    decreases |es|
  {
    if es == [] then w else After(Next(w, es[0]), es[1..])
  }

  function Fresh(now: int): Race {
    Race(map[], [], now, multiset{})
  }

  /** At no time are more than `peak` requests open for the key. */
  predicate Peaks(w: Race, es: seq<Event>, key: string, peak: nat)
    decreases |es|
  {
    w.open[key] <= peak && (es == [] || Peaks(Next(w, es[0]), es[1..], key, peak))
  }

  /** An unblocked key counts nine at most when a request is let through for it, so what is
      counted and what is still open together stay within nine and the peak. */
  predicate Inv(w: Race, key: string, peak: nat) {
    && KeyOk(w.table, w.log, key, w.now, MAX_FAILS - 1 + peak) && w.open[key] <= peak
    && (key in w.table ==> w.table[key].count + w.open[key] <= MAX_FAILS - 1 + peak)
  }

  lemma AskKeeps(w: Race, asked: string, now: int, key: string, peak: nat)
    requires Inv(w, key, peak) && Enabled(w, Asks(asked, now)) && Next(w, Asks(asked, now)).open[key] <= peak
    ensures Inv(Next(w, Asks(asked, now)), key, peak)
  {
    var cap := MAX_FAILS - 1 + peak;
    TimePasses(w.table, w.log, w.now, now, key, cap);
    CheckKeeps(w.table, w.log, asked, now, key, cap);
    hide KeyOk;
  }

  lemma ChargeKeeps(w: Race, charged: string, now: int, key: string, peak: nat)
    requires Inv(w, key, peak) && Enabled(w, Charges(charged, now))
    ensures Inv(Next(w, Charges(charged, now)), key, peak)
  {
    var cap := MAX_FAILS - 1 + peak;
    TimePasses(w.table, w.log, w.now, now, key, cap);
    RecordShape(w.table, charged, now);
    hide KeyOk, Record;
    if charged == key { RecordFailed(w.table, w.log, key, now, cap); } else { RecordOthers(w.table, w.log, charged, now, key, cap); }
  }

  lemma {:induction false} RunKeeps(w: Race, es: seq<Event>, key: string, peak: nat)
    requires Inv(w, key, peak) && Runs(w, es) && Peaks(w, es, key, peak)
    ensures Inv(After(w, es), key, peak)
    decreases |es|
  {
    hide KeyOk;
    if es != [] {
      var e := es[0];
      assert Next(w, e).open[key] <= peak;
      match e {
        case Asks(asked, now) => AskKeeps(w, asked, now, key, peak);
        case Charges(charged, now) => ChargeKeeps(w, charged, now, key, peak);
        case Finishes(_) =>
      }
      hide Inv, Next, Enabled;
      RunKeeps(Next(w, e), es[1..], key, peak);
    }
  }

  /** In every run, however requests overlap, no entry counts more than nine and the
      largest number of requests open for its key at any one time; and any fifteen minutes
      hold at most twice that, less one. */
  lemma OverlapIsBounded(start: int, es: seq<Event>, key: string, peak: nat, a: int)
    requires Runs(Fresh(start), es) && Peaks(Fresh(start), es, key, peak)
    ensures var w := After(Fresh(start), es);
            && (key in w.table ==> w.table[key].count <= MAX_FAILS - 1 + peak)
            && Within(TimesOf(w.log, key), a, a + FAIL_WINDOW) <= 2 * (MAX_FAILS - 1 + peak) - 1
  {
    RunKeeps(Fresh(start), es, key, peak);
    var w := After(Fresh(start), es);
    AtMostTwoWindows(Windows(TimesOf(w.log, key)), a, MAX_FAILS - 1 + peak);
    WithinWindows(TimesOf(w.log, key), a, a + FAIL_WINDOW);
  }

  // ---- The bounds are reached ----

  lemma {:induction false} OneMore(w: Race, es: seq<Event>, e: Event, key: string, peak: nat)
    requires Runs(w, es) && Enabled(After(w, es), e)
    requires Peaks(w, es, key, peak) && Next(After(w, es), e).open[key] <= peak
    ensures Runs(w, es + [e]) && After(w, es + [e]) == Next(After(w, es), e) && Peaks(w, es + [e], key, peak)
    decreases |es|
  {
    hide Next, Enabled;
    if es == [] {
      assert es + [e] == [e] && [e][1..] == [];
    } else {
      OneMore(Next(w, es[0]), es[1..], e, key, peak);
      assert (es + [e])[0] == es[0] && (es + [e])[1..] == es[1..] + [e];
    }
  }

  ghost predicate Reached(w: Race, key: string, peak: nat) {
    exists es :: Runs(Fresh(0), es) && Peaks(Fresh(0), es, key, peak) && After(Fresh(0), es) == w
  }

  lemma ReachedNext(w: Race, e: Event, key: string, peak: nat)
    requires Reached(w, key, peak) && Enabled(w, e) && Next(w, e).open[key] <= peak
    ensures Reached(Next(w, e), key, peak)
  {
    hide Next, Enabled;
    var es :| Runs(Fresh(0), es) && Peaks(Fresh(0), es, key, peak) && After(Fresh(0), es) == w;
    OneMore(Fresh(0), es, e, key, peak);
  }

  /** Only `key` was ever charged; its window began at `first`, and `recent` of its charges
      fell into the fifteen minutes from time 1. */
  predicate At(w: Race, key: string, count: nat, first: int, open: nat, recent: nat) {
    && w.table == map[key := Failure(count, first)] && w.open == multiset{}[key := open]
    && Within(TimesOf(w.log, key), 1, 1 + FAIL_WINDOW) == recent
  }

  lemma LogsOne(log: seq<(string, int)>, key: string, t: int)
    ensures Within(TimesOf(log + [(key, t)], key), 1, 1 + FAIL_WINDOW)
         == Within(TimesOf(log, key), 1, 1 + FAIL_WINDOW) + if 1 <= t <= 1 + FAIL_WINDOW then 1 else 0
  {
    var more := log + [(key, t)];
    assert more[..|more| - 1] == log;
    var times := TimesOf(log, key) + [t];
    assert times[..|times| - 1] == TimesOf(log, key);
  }

  lemma AskOnce(w: Race, key: string, count: nat, first: int, open: nat, recent: nat, t: int, peak: nat)
    requires Reached(w, key, peak) && At(w, key, count, first, open, recent)
    requires count < MAX_FAILS && w.now <= t <= first + FAIL_WINDOW && open < peak
    ensures var w' := Next(w, Asks(key, t));
            Reached(w', key, peak) && At(w', key, count, first, open + 1, recent) && w'.now == t
  {
    hide Reached;
    ReachedNext(w, Asks(key, t), key, peak);
  }

  lemma ChargeOnce(w: Race, key: string, count: nat, first: int, open: nat, recent: nat, t: int, peak: nat)
    requires Reached(w, key, peak) && At(w, key, count, first, open, recent)
    requires w.now <= t <= first + FAIL_WINDOW && 0 < open <= peak && 1 <= t <= 1 + FAIL_WINDOW
    ensures var w' := Next(w, Charges(key, t));
            Reached(w', key, peak) && At(w', key, count + 1, first, open - 1, recent + 1) && w'.now == t
  {
    hide Reached, Within, TimesOf;
    assert |w.table| == 1;
    LogsOne(w.log, key, t);
    ReachedNext(w, Charges(key, t), key, peak);
  }

  /** A request that is let through and charged as its window begins. */
  lemma Opens(w: Race, key: string, recent: nat, t: int, peak: nat) returns (w': Race)
    requires Reached(w, key, peak) && peak >= 1 && w.open == multiset{} && w.now <= t
    requires w.table == map[] || (w.table.Keys == {key} && Expired(w.table[key], t))
    requires Within(TimesOf(w.log, key), 1, 1 + FAIL_WINDOW) == recent
    ensures Reached(w', key, peak) && At(w', key, 1, t, 0, recent + if 1 <= t <= 1 + FAIL_WINDOW then 1 else 0) && w'.now == t
  {
    hide Reached, Within, TimesOf;
    var v := Next(w, Asks(key, t));
    assert v.table == map[] && v.open == multiset{key};
    ReachedNext(w, Asks(key, t), key, peak);
    LogsOne(w.log, key, t);
    w' := Next(v, Charges(key, t));
    ReachedNext(v, Charges(key, t), key, peak);
  }

  /** Requests one after another. */
  lemma {:induction false} InTurn(w: Race, key: string, count: nat, first: int, recent: nat, t: int, peak: nat, n: nat) returns (w': Race)
    requires Reached(w, key, peak) && At(w, key, count, first, 0, recent) && peak >= 1 && count + n < MAX_FAILS
    requires w.now <= t <= first + FAIL_WINDOW && 1 <= t <= 1 + FAIL_WINDOW
    ensures Reached(w', key, peak) && At(w', key, count + n, first, 0, recent + n) && w'.now <= t
    decreases n
  {
    hide Next, At, Reached;
    if n == 0 {
      w' := w;
    } else {
      AskOnce(w, key, count, first, 0, recent, t, peak);
      var v := Next(w, Asks(key, t));
      ChargeOnce(v, key, count, first, 1, recent, t, peak);
      w' := InTurn(Next(v, Charges(key, t)), key, count + 1, first, recent + 1, t, peak, n - 1);
    }
  }

  /** Requests that are all let through before any is charged. */
  lemma {:induction false} Crowd(w: Race, key: string, count: nat, first: int, recent: nat, t: int, peak: nat, open: nat) returns (w': Race)
    requires Reached(w, key, peak) && At(w, key, count, first, open, recent) && open <= peak && count < MAX_FAILS
    requires w.now <= t <= first + FAIL_WINDOW
    ensures Reached(w', key, peak) && At(w', key, count, first, peak, recent) && w'.now <= t
    decreases peak - open
  {
    hide Next, At, Reached;
    if open == peak {
      w' := w;
    } else {
      AskOnce(w, key, count, first, open, recent, t, peak);
      w' := Crowd(Next(w, Asks(key, t)), key, count, first, recent, t, peak, open + 1);
    }
  }

  lemma {:induction false} ChargeAll(w: Race, key: string, count: nat, first: int, recent: nat, t: int, peak: nat, open: nat) returns (w': Race)
    requires Reached(w, key, peak) && At(w, key, count, first, open, recent) && open <= peak
    requires w.now <= t <= first + FAIL_WINDOW && 1 <= t <= 1 + FAIL_WINDOW
    ensures Reached(w', key, peak) && At(w', key, count + open, first, 0, recent + open) && w'.now <= t
    decreases open
  {
    hide Next, At, Reached;
    if open == 0 {
      w' := w;
    } else {
      ChargeOnce(w, key, count, first, open, recent, t, peak);
      w' := ChargeAll(Next(w, Charges(key, t)), key, count + 1, first, recent + 1, t, peak, open - 1);
    }
  }

  /** A window that has begun is filled to the bound at one moment. */
  lemma Fill(w: Race, key: string, first: int, recent: nat, t: int, peak: nat) returns (w': Race)
    requires Reached(w, key, peak) && At(w, key, 1, first, 0, recent) && peak >= 1
    requires w.now <= t <= first + FAIL_WINDOW && 1 <= t <= 1 + FAIL_WINDOW
    ensures Reached(w', key, peak) && At(w', key, MAX_FAILS - 1 + peak, first, 0, recent + MAX_FAILS - 2 + peak) && w'.now <= t
  {
    hide At, Reached;
    w' := InTurn(w, key, 1, first, recent, t, peak, MAX_FAILS - 2);
    w' := Crowd(w', key, MAX_FAILS - 1, first, recent + MAX_FAILS - 2, t, peak, 0);
    w' := ChargeAll(w', key, MAX_FAILS - 1, first, recent + MAX_FAILS - 2, t, peak, peak);
  }

  /** Both bounds are reached at once, for every peak: one charge at time 0, its window
      filled as it ends, and the next one filled as it begins. */
  lemma BoundsAreReached(key: string, peak: nat) returns (es: seq<Event>)
    requires peak >= 1
    ensures Runs(Fresh(0), es) && Peaks(Fresh(0), es, key, peak)
    ensures var w := After(Fresh(0), es);
            && key in w.table && w.table[key].count == MAX_FAILS - 1 + peak
            && Within(TimesOf(w.log, key), 1, 1 + FAIL_WINDOW) == 2 * (MAX_FAILS - 1 + peak) - 1
  {
    hide Next, Enabled, Reached, Within, TimesOf;
    FreshReached(key, peak);
    var w := Opens(Fresh(0), key, 0, 0, peak);
    w := Fill(w, key, 0, 0, FAIL_WINDOW, peak);
    assert w.table.Keys == {key} && w.open == multiset{};
    w := Opens(w, key, MAX_FAILS - 2 + peak, FAIL_WINDOW + 1, peak);
    w := Fill(w, key, FAIL_WINDOW + 1, MAX_FAILS - 1 + peak, FAIL_WINDOW + 1, peak);
    es := RunTo(w, key, peak);
  }

  lemma FreshReached(key: string, peak: nat)
    ensures Reached(Fresh(0), key, peak) && Within(TimesOf(Fresh(0).log, key), 1, 1 + FAIL_WINDOW) == 0
  {
    assert Runs(Fresh(0), []) && Peaks(Fresh(0), [], key, peak) && After(Fresh(0), []) == Fresh(0);
  }

  lemma RunTo(w: Race, key: string, peak: nat) returns (es: seq<Event>)
    requires Reached(w, key, peak)
    ensures Runs(Fresh(0), es) && Peaks(Fresh(0), es, key, peak) && After(Fresh(0), es) == w
  {
    es :| Runs(Fresh(0), es) && Peaks(Fresh(0), es, key, peak) && After(Fresh(0), es) == w;
  }

  /** Every run with at most `peak` requests open at a time keeps the count within ten. */
  ghost predicate TenSuffices(key: string, peak: nat) {
    forall es | Runs(Fresh(0), es) && Peaks(Fresh(0), es, key, peak) ::
      key in After(Fresh(0), es).table ==> After(Fresh(0), es).table[key].count <= MAX_FAILS
  }

  /** The bound is reached for every peak, so the limit of ten is kept if and only if no two
      requests for a key are ever open at once. */
  lemma TenHoldsExactly(key: string, peak: nat)
    ensures TenSuffices(key, peak) <==> peak <= 1
  {
    if peak <= 1 {
      forall es | Runs(Fresh(0), es) && Peaks(Fresh(0), es, key, peak)
        ensures key in After(Fresh(0), es).table ==> After(Fresh(0), es).table[key].count <= MAX_FAILS
      {
        OverlapIsBounded(0, es, key, peak, 0);
      }
    } else {
      var es := BoundsAreReached(key, peak);
      assert After(Fresh(0), es).table[key].count == MAX_FAILS - 1 + peak;
    }
  }
}
