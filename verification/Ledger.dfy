/** Invites over whole runs: no use is created, lost or spent twice
    (internal/server/store.go). */
module Ledger {
  import opened Basics
  import opened Codes
  import opened Store
  import opened Accounts

  type Book = map<string, Invite>

  function Part(b: Book, keep: set<string>): Book {
    map c | c in b && c in keep :: b[c]
  }

  lemma {:induction false} LeftWithout(b: Book, c: string)
    requires c in b
    ensures Left(b) == b[c].usesLeft + Left(b - {c})
    decreases |b|
  {
    var x :| x in b && Left(b) == b[x].usesLeft + Left(b - {x});
    if x != c {
      LeftWithout(b - {x}, c);
      LeftWithout(b - {c}, x);
      assert b - {x} - {c} == b - {c} - {x};
    }
  }

  lemma LeftAfter(b: Book, c: string, i: Invite)
    ensures Left(b[c := i]) == i.usesLeft + (Left(b) - (if c in b then b[c].usesLeft else 0))
  {
    LeftWithout(b[c := i], c);
    if c in b { LeftWithout(b, c); }
    assert b[c := i] - {c} == b - {c};
    if c !in b { assert b - {c} == b; }
  }

  lemma PartsWithout(b: Book, gone: set<string>, c: string)
    requires c in b
    ensures c in gone ==> c in Part(b, gone) && Part(b, gone)[c] == b[c]
    ensures c in gone ==> b - {c} - gone == b - gone && Part(b - {c}, gone) == Part(b, gone) - {c}
    ensures c !in gone ==> b - {c} - gone == b - gone - {c} && Part(b - {c}, gone) == Part(b, gone)
  {}

  /** Taking some entries out takes exactly their uses out. */
  lemma {:induction false} LeftSplits(b: Book, gone: set<string>)
    ensures Left(b) == Left(b - gone) + Left(Part(b, gone))
    decreases |b.Keys|
  {
    if b == map[] {
      assert b - gone == map[] && Part(b, gone) == map[];
    } else {
      var c :| c in b;
      assert |(b - {c}).Keys| < |b.Keys| by { assert (b - {c}).Keys == b.Keys - {c}; }
      PartsWithout(b, gone, c);
      hide Part, Left;
      LeftWithout(b, c);
      LeftSplits(b - {c}, gone);
      if c in gone { LeftWithout(Part(b, gone), c); } else { LeftWithout(b - gone, c); }
    }
  }

  lemma {:induction false} LeftPositive(b: Book)
    requires forall c | c in b :: b[c].usesLeft >= 1
    ensures Left(b) >= |b|
    decreases |b|
  {
    if b != map[] {
      var c :| c in b && Left(b) == b[c].usesLeft + Left(b - {c});
      assert (b - {c}).Keys == b.Keys - {c};
      LeftPositive(b - {c});
    }
  }

  // ---- Sums over a run ----

  function UsesIssued(log: seq<Note>): int {
    if log == [] then 0
    else UsesIssued(log[..|log| - 1]) + (if log[|log| - 1].Issued? then log[|log| - 1].uses else 0)
  }

  /** Accounts made with an invite. */
  function UsesSpent(log: seq<Note>): int {
    if log == [] then 0
    else UsesSpent(log[..|log| - 1]) + (if log[|log| - 1].Joined? && log[|log| - 1].paid then 1 else 0)
  }

  /** Uses revoked, expired or overwritten by an equal code. */
  function UsesDropped(log: seq<Note>): int {
    if log == [] then 0
    else
      var n := log[|log| - 1];
      UsesDropped(log[..|log| - 1]) + (if n.Dropped? then n.uses else if n.Issued? then n.overwritten else 0)
  }

  /** Every stored invite is under its own code and has a use left. */
  predicate BookOk(b: Book) {
    forall c | c in b :: b[c].code == c && b[c].usesLeft >= 1 && IsCode(c) && |c| == CODE_SIZE
  }

  /** The change one note makes to the balance of the book. */
  function Change(n: Note): int {
    match n
    case Nothing => 0
    case Joined(_, paid) => if paid then -1 else 0
    case Issued(uses, overwritten) => uses - overwritten
    case Dropped(uses) => -uses
  }

  /** Nothing negative is ever taken off. */
  predicate Sound(n: Note) {
    (n.Dropped? ==> n.uses >= 0) && (n.Issued? ==> n.overwritten >= 0)
  }

  lemma SpendKeeps(b: Book, c: string)
    requires BookOk(b) && c in b
    ensures BookOk(Spend(b, c)) && Left(Spend(b, c)) == Left(b) - 1
  {
    var i := b[c].(usesLeft := b[c].usesLeft - 1);
    LeftWithout(b, c);
    LeftAfter(b, c, i);
    if i.usesLeft == 0 { assert b[c := i] - {c} == b - {c}; }
  }

  lemma LapsedSplit(b: Book, now: int)
    ensures Left(b) == Left(map c | c in b && !Lapsed(b[c], now) :: b[c]) + Left(Lapsing(b, now))
  {
    var gone := set c | c in b && Lapsed(b[c], now);
    LeftSplits(b, gone);
    assert b - gone == map c | c in b && !Lapsed(b[c], now) :: b[c];
    assert Part(b, gone) == Lapsing(b, now);
  }

  lemma AdminStepBalances(d: Data, me: User, e: Event)
    requires BookOk(d.invites) && Enabled(d, e)
    ensures var (d', n) := AdminStep(d, me, e);
            BookOk(d'.invites) && Sound(n) && Left(d'.invites) == Left(d.invites) + Change(n)
  {
    hide Left, Normalize;
    if e.Invites? {
      LapsedSplit(d.invites, e.now);
      LeftPositive(Lapsing(d.invites, e.now));
    } else if e.Offer? {
      var d' := AdminStep(d, me, e).0;
      LeftAfter(d.invites, e.code, d'.invites[e.code]);
    } else if e.Withdraw? {
      var c := Normalize(e.code);
      if c in d.invites { LeftWithout(d.invites, c); }
    }
  }

  lemma SignUpBalances(d: Data, e: Event, needInvite: bool)
    requires BookOk(d.invites) && e.SignUp?
    ensures var (d', n) := SignUpStep(d, e, needInvite);
            BookOk(d'.invites) && Sound(n) && Left(d'.invites) == Left(d.invites) + Change(n)
  {
    hide Left, Normalize, Spend, BookOk, NewSession;
    var c := Normalize(e.invite);
    if c in d.invites { SpendKeeps(d.invites, c); }
    var d1 := Register(d, e.name, e.key, e.invite, needInvite, e.now, e.saves).0;
    if d1.users != d.users { assert e.name in d1.users && e.name !in d.users; }
    SessionsApart(d1, e);
  }

  lemma SessionsApart(d: Data, e: Event)
    requires e.SignUp?
    ensures NewSession(d, e.name, e.device, e.token, e.now).invites == d.invites
  {}

  lemma StepBalances(d: Data, e: Event, needInvite: bool)
    requires BookOk(d.invites) && Enabled(d, e)
    ensures var (d', n) := Step(d, e, needInvite);
            BookOk(d'.invites) && Sound(n) && Left(d'.invites) == Left(d.invites) + Change(n)
  {
    hide Left, BookOk, AdminStep, SignUpStep;
    if e.SignUp? {
      SignUpBalances(d, e, needInvite);
    } else if !e.SignIn? && !e.SignOut? && !e.Forget? {
      var (d1, me) := Admin(d, e.token, e.now);
      assert d1.invites == d.invites && Enabled(d1, e);
      if me.Some? { AdminStepBalances(d1, me.value, e); }
    }
  }

  ghost predicate Balanced(w: World) {
    && BookOk(w.data.invites)
    && UsesDropped(w.log) >= 0
    && UsesIssued(w.log) == UsesSpent(w.log) + UsesDropped(w.log) + Left(w.data.invites)
  }

  lemma {:induction false} RunBalances(w: World, es: seq<Event>, needInvite: bool)
    requires Balanced(w) && Runs(w, es, needInvite)
    ensures Balanced(After(w, es, needInvite))
    decreases |es|
  {
    hide Left, BookOk, Step, Enabled;
    if es != [] {
      StepBalances(w.data, es[0], needInvite);
      var w' := Next(w, es[0], needInvite);
      assert w'.log[..|w'.log| - 1] == w.log;
      RunBalances(w', es[1..], needInvite);
    }
  }

  /** In every run the uses ever issued are the accounts made with an invite, plus the uses
      revoked, expired or overwritten, plus those left; every stored invite has a use left
      and is found again by the dashed code its maker was shown. */
  lemma InvitesAreConserved(es: seq<Event>, needInvite: bool)
    requires Runs(FRESH, es, needInvite)
    ensures var w := After(FRESH, es, needInvite);
            UsesIssued(w.log) == UsesSpent(w.log) + UsesDropped(w.log) + Left(w.data.invites)
    ensures var b := After(FRESH, es, needInvite).data.invites;
            forall c | c in b :: b[c].usesLeft >= 1 && Normalize(FormatInvite(b[c].code)) == c && |FormatInvite(c)| == 14
  {
    assert Balanced(FRESH);
    hide Left, Runs, After, Normalize, FormatInvite, UsesIssued, UsesSpent, UsesDropped;
    RunBalances(FRESH, es, needInvite);
    var b := After(FRESH, es, needInvite).data.invites;
    forall c | c in b ensures b[c].usesLeft >= 1 && Normalize(FormatInvite(b[c].code)) == c && |FormatInvite(c)| == 14 {
      ShownInvite(c);
    }
  }

  lemma ShownInvite(c: string)
    requires IsCode(c) && |c| == CODE_SIZE
    ensures Normalize(FormatInvite(c)) == c && |FormatInvite(c)| == 14
  {
    hide Normalize, IsCode;
    ShownFormMeansTheSame(c);
    CodesAreNormal(c);
    assert |Dashed(c, 3)| == 14 by { assert |Dashed(c[..8], 2)| == 9; }
  }

  /** Accounts made with an invite never outnumber the uses issued, whatever is revoked. */
  lemma NoMoreAccountsThanUses(es: seq<Event>, needInvite: bool)
    requires Runs(FRESH, es, needInvite)
    ensures UsesSpent(After(FRESH, es, needInvite).log) <= UsesIssued(After(FRESH, es, needInvite).log)
  {
    RunBalances(FRESH, es, needInvite);
    LeftPositive(After(FRESH, es, needInvite).data.invites);
  }

  // ---- How long an invite lasts ----

  /** Registrations with one invite, one after another, under these names. */
  function SignUps(d: Data, names: seq<string>, key: Bytes, typed: string, now: int): Data {
    if names == [] then d
    else Register(SignUps(d, names[..|names| - 1], key, typed, now), names[|names| - 1], key, typed, true, now, true).0
  }

  /** Names that could be registered. */
  predicate Available(d: Data, names: seq<string>) {
    && (forall i | 0 <= i < |names| :: ValidName(names[i]) && names[i] !in d.users)
    && forall i, j | 0 <= i < j < |names| :: names[i] != names[j]
  }

  function Uses(asked: int): int {
    if asked <= 0 then 1 else asked
  }

  /** An invite just made, for so many uses and so long, lets in as many people as it has
      uses and nobody after them, however its code is typed, up to the moment it expires and
      not a moment later; one made without a term does not expire. */
  lemma {:induction false} InviteLastsExactly(d0: Data, creator: string, uses: int, valid: int, note: string, code: string, made: int,
                                              names: seq<string>, key: Bytes, typed: string, now: int)
    requires IsCode(code) && |code| == CODE_SIZE && Normalize(typed) == code && d0.users != map[] && |key| == KEY_SIZE
    requires Available(d0, names)
    ensures var d := SignUps(CreateInvite(d0, creator, uses, valid, note, code, made, true).0, names, key, typed, now);
            var lasts := valid <= 0 || now <= made + valid;
            && (forall n :: n in d.users <==> n in d0.users || (lasts && exists i :: 0 <= i < |names| && i < Uses(uses) && names[i] == n))
            && (if lasts then code in d.invites <==> |names| < Uses(uses) else code in d.invites)
            && (code in d.invites ==> d.invites[code].usesLeft == (if lasts then Uses(uses) - |names| else Uses(uses)) && d.invites[code].code == code
                                      && d.invites[code].createdBy == creator && d.invites[code].note == note
                                      && d.invites[code].expires == if valid > 0 then Some(made + valid) else None)
    decreases |names|
  {
    hide Normalize, ValidName, IsCode;
    if names != [] {
      var n := |names| - 1;
      InviteLastsExactly(d0, creator, uses, valid, note, code, made, names[..n], key, typed, now);
      var d := SignUps(CreateInvite(d0, creator, uses, valid, note, code, made, true).0, names[..n], key, typed, now);
      assert names[n] !in d.users;
      assert forall i | 0 <= i < n :: names[..n][i] == names[i];
    }
  }
}
