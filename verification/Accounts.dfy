/** The server's account requests, each taken as one step, over whole runs
    (internal/server/server.go on top of internal/server/store.go). */
module Accounts {
  import opened Basics
  import opened Codes
  import opened Store

  const CONSOLE := "(server console)"
  const CODE_SIZE := 12

  /** A request with everything it depends on: the time, the random token or code drawn,
      whether each write of the file succeeds. */
  datatype Event =
    | SignUp(name: string, key: Bytes, invite: string, nearby: bool, device: Device, token: string, now: int, saves: bool)
    | SignIn(name: string, key: Bytes, device: Device, token: string, now: int)
    | SignOut(token: string, now: int)
    | Forget(token: string, id: string, now: int, saves: bool)
    | Patch(token: string, target: string, disabled: Option<bool>, admin: Option<bool>, now: int, saves: bool, saves2: bool)
    | Delete(token: string, target: string, now: int, saves: bool)
    | Invites(token: string, now: int)
    | Offer(token: string, uses: int, valid: int, note: string, code: string, now: int, saves: bool)
    | Withdraw(token: string, code: string, now: int, saves: bool)

  /** What a request did to accounts and invites. */
  datatype Note =
    | Nothing
    | Joined(first: bool, paid: bool)
    | Issued(uses: int, overwritten: int)
    | Dropped(uses: int)

  /** All the uses still to be had. */
  ghost function Left(invites: map<string, Invite>): int {
    if invites == map[] then 0
    else
      var c :| c in invites;
      invites[c].usesLeft + Left(invites - {c})
  }

  /** The invites that have lapsed. */
  function Lapsing(invites: map<string, Invite>, now: int): map<string, Invite> {
    map c | c in invites && Lapsed(invites[c], now) :: invites[c]
  }

  // ---- Handlers ----

  function SignUpStep(d: Data, e: Event, needInvite: bool): (Data, Note)
    requires e.SignUp?
  {
    if d.users == map[] && !e.nearby then (d, Nothing)
    else
      var (d1, r) := Register(d, e.name, e.key, e.invite, needInvite, e.now, e.saves);
      var note := if d1.users == d.users then Nothing else Joined(d.users == map[], needInvite && d.users != map[]);
      if r.Err? then (d1, note) else (NewSession(d1, e.name, e.device, e.token, e.now), note)
  }

  function SignInStep(d: Data, e: Event): Data
    requires e.SignIn?
  {
    var r := CheckLogin(d, e.name, e.key);
    if r.Err? then d else NewSession(d, r.value.name, e.device, e.token, e.now)
  }

  /** The signed-in admin behind a token. */
  function Admin(d: Data, token: string, now: int): (Data, Option<User>) {
    var (d1, r) := Authenticate(d, token, now);
    (d1, if r.Ok? && r.value.1.admin then Some(r.value.1) else None)
  }

  /** patchUser once the caller is known. */
  function PatchBy(d: Data, me: string, target: string, disabled: Option<bool>, admin: Option<bool>, saves: bool, saves2: bool): Data {
    if target == me && (disabled == Some(true) || admin == Some(false)) then d
    else
      var (d1, r1) := if disabled.Some? then SetDisabled(d, target, disabled.value, saves) else (d, Ok(()));
      if r1.Err? || admin.None? then d1 else SetAdmin(d1, target, admin.value, saves2).0
  }

  function DeleteBy(d: Data, me: string, target: string, saves: bool): Data {
    if target == me then d else DeleteUser(d, target, saves).0
  }

  /** What an admin's request does, given who asks. */
  ghost function AdminStep(d: Data, me: User, e: Event): (Data, Note) {
    match e
    case Patch(_, target, disabled, admin, _, s1, s2) => (PatchBy(d, me.name, target, disabled, admin, s1, s2), Nothing)
    case Delete(_, target, _, saves) => (DeleteBy(d, me.name, target, saves), Nothing)
    case Invites(_, now) => (DropLapsed(d, now), Dropped(Left(Lapsing(d.invites, now))))
    case Offer(_, uses, valid, note, code, now, saves) =>
      var d1 := CreateInvite(d, me.name, uses, valid, note, code, now, saves).0;
      (d1, Issued(d1.invites[code].usesLeft, if code in d.invites then d.invites[code].usesLeft else 0))
    case Withdraw(_, code, now, saves) =>
      var c := Normalize(code);
      (RevokeInvite(d, code, saves).0, Dropped(if c in d.invites then d.invites[c].usesLeft else 0))
    case _ => (d, Nothing)
  }

  ghost function Step(d: Data, e: Event, needInvite: bool): (Data, Note) {
    match e
    case SignUp(_, _, _, _, _, _, _, _) => SignUpStep(d, e, needInvite)
    case SignIn(_, _, _, _, _) => (SignInStep(d, e), Nothing)
    case SignOut(token, now) =>
      var (d1, r) := Authenticate(d, token, now);
      if r.Err? then (d1, Nothing) else (Logout(d1, token), Nothing)
    case Forget(token, id, now, saves) =>
      var (d1, r) := Authenticate(d, token, now);
      if r.Err? then (d1, Nothing) else (RevokeDevice(d1, r.value.1.name, id, saves).0, Nothing)
    case _ =>
      var (d1, me) := Admin(d, e.token, e.now);
      if me.None? then (d1, Nothing) else AdminStep(d1, me.value, e)
  }

  // ---- Runs ----

  datatype World = World(data: Data, log: seq<Note>)

  /** Drawn codes are twelve letters; drawn tokens are new. */
  predicate Enabled(d: Data, e: Event) {
    && (e.Offer? ==> IsCode(e.code) && |e.code| == CODE_SIZE)
    && (e.SignUp? || e.SignIn? ==> OfToken(e.token) !in d.sessions)
  }

  ghost function Next(w: World, e: Event, needInvite: bool): World {
    var (d, note) := Step(w.data, e, needInvite);
    World(d, w.log + [note])
  }

  ghost predicate Runs(w: World, es: seq<Event>, needInvite: bool)
    decreases |es|
  {
    es == [] || (Enabled(w.data, es[0]) && Runs(Next(w, es[0], needInvite), es[1..], needInvite))
  }

  ghost function After(w: World, es: seq<Event>, needInvite: bool): World
    decreases |es|
  {
    if es == [] then w else After(Next(w, es[0], needInvite), es[1..], needInvite)
  }

  const FRESH := World(Data(map[], map[], map[]), [])

  // ---- Admins ----

  type People = map<string, User>

  predicate EnabledAdmin(people: People, n: string) {
    n in people && people[n].admin && !people[n].disabled
  }

  predicate Named(people: People) {
    forall n | n in people :: people[n].name == n
  }

  /** Nobody has an account yet, or there is an admin who can act. */
  ghost predicate Governed(people: People) {
    people == map[] || exists n :: EnabledAdmin(people, n)
  }

  /** Every session belongs to an account, and no device has two. */
  predicate SessionsOk(d: Data) {
    && (forall k | k in d.sessions :: d.sessions[k].user in d.users)
    && (forall k, k' | k in d.sessions && k' in d.sessions && d.sessions[k].user == d.sessions[k'].user
                       && d.sessions[k].device.id == d.sessions[k'].device.id :: k == k')
  }

  function Firsts(log: seq<Note>): nat {
    if log == [] then 0
    else Firsts(log[..|log| - 1]) + (if log[|log| - 1].Joined? && log[|log| - 1].first then 1 else 0)
  }

  ghost predicate PeopleOk(d: Data) {
    Named(d.users) && Governed(d.users) && SessionsOk(d)
  }

  lemma TouchKeeps(d: Data, token: string, now: int)
    requires PeopleOk(d)
    ensures var (d1, r) := Authenticate(d, token, now);
            && PeopleOk(d1) && d1.users == d.users && d1.invites == d.invites
            && (r.Ok? ==> d.users[r.value.1.name] == r.value.1 && !r.value.1.disabled && r.value.1.name in d.users)
  {}

  lemma NewSessionKeeps(d: Data, user: string, device: Device, token: string, now: int)
    requires PeopleOk(d) && user in d.users
    ensures PeopleOk(NewSession(d, user, device, token, now))
  {}

  lemma SignUpKeeps(d: Data, e: Event, needInvite: bool)
    requires PeopleOk(d) && e.SignUp?
    ensures var (d', note) := SignUpStep(d, e, needInvite);
            && PeopleOk(d') && (note.Joined? && note.first <==> d.users == map[] && d'.users != map[])
            && (d.users != map[] ==> d'.users != map[])
  {
    var (d1, r) := Register(d, e.name, e.key, e.invite, needInvite, e.now, e.saves);
    assert PeopleOk(d1) && (r.Ok? ==> e.name in d1.users) by {
      if d1.users != d.users {
        if d.users == map[] { assert EnabledAdmin(d1.users, e.name); }
        else {
          var n :| EnabledAdmin(d.users, n);
          assert EnabledAdmin(d1.users, n);
        }
      }
    }
    assert d.users != map[] ==> d1.users != map[];
    hide Register, Named, Governed, SessionsOk, NewSession;
    if r.Ok? { NewSessionKeeps(d1, e.name, e.device, e.token, e.now); }
  }

  lemma SignInKeeps(d: Data, e: Event)
    requires PeopleOk(d) && e.SignIn?
    ensures PeopleOk(SignInStep(d, e)) && SignInStep(d, e).users == d.users && SignInStep(d, e).invites == d.invites
  {
    var r := CheckLogin(d, e.name, e.key);
    if r.Ok? { NewSessionKeeps(d, r.value.name, e.device, e.token, e.now); }
  }

  /** Whoever asks stays an admin who can act. */
  lemma PatchKeepsMe(d: Data, me: string, target: string, disabled: Option<bool>, admin: Option<bool>, s1: bool, s2: bool)
    requires EnabledAdmin(d.users, me)
    ensures var d' := PatchBy(d, me, target, disabled, admin, s1, s2);
            EnabledAdmin(d'.users, me) && d'.users.Keys == d.users.Keys && d'.sessions == d.sessions && d'.invites == d.invites
    ensures Named(d.users) ==> Named(PatchBy(d, me, target, disabled, admin, s1, s2).users)
  {}

  lemma DeleteKeepsMe(d: Data, me: string, target: string, s: bool)
    requires EnabledAdmin(d.users, me)
    ensures var d' := DeleteBy(d, me, target, s);
            EnabledAdmin(d'.users, me) && d'.invites == d.invites && (Named(d.users) ==> Named(d'.users)) && (SessionsOk(d) ==> SessionsOk(d'))
  {}

  lemma AdminStepKeeps(d: Data, me: User, e: Event)
    requires PeopleOk(d) && EnabledAdmin(d.users, me.name)
    ensures PeopleOk(AdminStep(d, me, e).0) && AdminStep(d, me, e).0.users != map[] && !AdminStep(d, me, e).1.Joined?
  {
    match e
    case Patch(_, target, disabled, admin, _, s1, s2) => PatchKeepsMe(d, me.name, target, disabled, admin, s1, s2);
    case Delete(_, target, _, saves) => DeleteKeepsMe(d, me.name, target, saves);
    case _ =>
  }

  lemma OtherStepKeeps(d: Data, e: Event, needInvite: bool)
    requires PeopleOk(d) && !e.SignUp?
    ensures var (d', note) := Step(d, e, needInvite);
            PeopleOk(d') && (d'.users == map[] <==> d.users == map[]) && !note.Joined?
  {
    if e.SignIn? {
      SignInKeeps(d, e);
    } else {
      TouchKeeps(d, e.token, e.now);
      if !e.Forget? && !e.SignOut? {
        var (d1, me) := Admin(d, e.token, e.now);
        if me.Some? {
          assert EnabledAdmin(d1.users, me.value.name);
          hide Authenticate, Named, Governed, SessionsOk;
          AdminStepKeeps(d1, me.value, e);
        }
      }
    }
  }

  ghost predicate WorldOk(w: World) {
    PeopleOk(w.data) && Firsts(w.log) == if w.data.users == map[] then 0 else 1
  }

  lemma {:induction false} RunKeeps(w: World, es: seq<Event>, needInvite: bool)
    requires WorldOk(w) && Runs(w, es, needInvite)
    ensures WorldOk(After(w, es, needInvite))
    decreases |es|
  {
    hide Enabled, PeopleOk, Step, SignUpStep;
    if es != [] {
      var e := es[0];
      if e.SignUp? {
        SignUpKeeps(w.data, e, needInvite);
        SignUpIsAStep(w.data, e, needInvite);
      } else {
        OtherStepKeeps(w.data, e, needInvite);
      }
      var w' := Next(w, e, needInvite);
      assert w'.log[..|w'.log| - 1] == w.log;
      RunKeeps(w', es[1..], needInvite);
    }
  }

  lemma SignUpIsAStep(d: Data, e: Event, needInvite: bool)
    requires e.SignUp?
    ensures Step(d, e, needInvite) == SignUpStep(d, e, needInvite)
  {
    hide SignUpStep;
  }

  /** In every run, from the first registration on there is always an enabled admin, so
      exactly one account ever becomes admin by being first. */
  lemma NeverLockedOut(es: seq<Event>, needInvite: bool)
    requires Runs(FRESH, es, needInvite)
    ensures var w := After(FRESH, es, needInvite);
            if w.data.users == map[] then Firsts(w.log) == 0
            else Firsts(w.log) == 1 && exists n :: EnabledAdmin(w.data.users, n)
  {
    RunKeeps(FRESH, es, needInvite);
  }

  // ---- What the guarantee rests on ----

  /** The patch disables or demotes its target. (The second change is skipped if the first
      could not be saved.) */
  predicate TakesOut(disabled: Option<bool>, admin: Option<bool>, s1: bool) {
    disabled == Some(true) || (admin == Some(false) && (disabled.None? || s1))
  }

  /** A patch carried out for someone who was let in earlier, whatever has become of them
      since, leaves an enabled admin if and only if it is about that very name, takes
      nobody out, or takes out somebody who is not the only one. */
  lemma LatePatchLocksOut(people: People, me: string, target: string, disabled: Option<bool>, admin: Option<bool>, s1: bool, s2: bool)
    requires exists n :: EnabledAdmin(people, n)
    ensures var after := PatchBy(Data(people, map[], map[]), me, target, disabled, admin, s1, s2).users;
            (exists n :: EnabledAdmin(after, n)) <==>
            target == me || !TakesOut(disabled, admin, s1) || exists n :: n != target && EnabledAdmin(people, n)
  {
    var after := PatchBy(Data(people, map[], map[]), me, target, disabled, admin, s1, s2).users;
    assert forall n | n != target :: EnabledAdmin(after, n) == EnabledAdmin(people, n);
    var n0 :| EnabledAdmin(people, n0);
    assert EnabledAdmin(after, n0) || n0 == target;
  }

  /** The same for a deletion. */
  lemma LateDeleteLocksOut(people: People, me: string, target: string, saves: bool)
    requires exists n :: EnabledAdmin(people, n)
    ensures var after := DeleteBy(Data(people, map[], map[]), me, target, saves).users;
            (exists n :: EnabledAdmin(after, n)) <==> target == me || exists n :: n != target && EnabledAdmin(people, n)
  {
    var after := DeleteBy(Data(people, map[], map[]), me, target, saves).users;
    assert forall n | n != target :: EnabledAdmin(after, n) == EnabledAdmin(people, n);
    var n0 :| EnabledAdmin(people, n0);
    assert EnabledAdmin(after, n0) || n0 == target;
  }

  /** The server's own console asks under a name that is no account's, so nothing stops it
      from taking the last admin out: it leaves none exactly when it disables or demotes
      the only one. */
  lemma ConsoleLocksOut(people: People, target: string, disabled: Option<bool>, admin: Option<bool>, s1: bool, s2: bool)
    requires target != CONSOLE && exists n :: EnabledAdmin(people, n)
    ensures var after := PatchBy(Data(people, map[], map[]), CONSOLE, target, disabled, admin, s1, s2).users;
            (exists n :: EnabledAdmin(after, n)) <==>
            !TakesOut(disabled, admin, s1) || exists n :: n != target && EnabledAdmin(people, n)
  {
    LatePatchLocksOut(people, CONSOLE, target, disabled, admin, s1, s2);
  }

  /** Each request must be one step: if two admins, the only ones, are both let in before
      either acts, each can demote the other. */
  lemma AdminsDemoteEachOther(people: People, a: string, b: string)
    requires Named(people) && a != b && (forall n :: EnabledAdmin(people, n) <==> n == a || n == b)
    ensures var d := Data(people, map[], map[]);
            var d1 := PatchBy(d, a, b, None, Some(false), true, true);
            var d2 := PatchBy(d1, b, a, None, Some(false), true, true);
            forall n :: !EnabledAdmin(d2.users, n)
  {
    var d1 := PatchBy(Data(people, map[], map[]), a, b, None, Some(false), true, true);
    assert EnabledAdmin(people, a) && EnabledAdmin(people, b);
    assert d1.users == people[b := people[b].(admin := false)];
    forall n ensures EnabledAdmin(d1.users, n) <==> n == a {
      if n != b { assert EnabledAdmin(d1.users, n) == EnabledAdmin(people, n); }
    }
    var d2 := PatchBy(d1, b, a, None, Some(false), true, true);
    assert d2.users == d1.users[a := d1.users[a].(admin := false)];
    forall n ensures !EnabledAdmin(d2.users, n) {
      if n != a { assert EnabledAdmin(d2.users, n) == EnabledAdmin(d1.users, n); }
    }
  }

  // ---- Who may do what ----

  /** Only a new account, or an admin who can act, changes an account or an invite. */
  lemma OnlyAdminsAct(d: Data, e: Event, needInvite: bool)
    requires Step(d, e, needInvite).0.users != d.users || Step(d, e, needInvite).0.invites != d.invites
    ensures e.SignUp? || (var k := OfToken(e.token); k in d.sessions && EnabledAdmin(d.users, d.sessions[k].user))
  {}

  /** Disabling an account does not sign its devices out: enabling it again brings every
      token back to life. */
  lemma DisablingKeepsTokens(d: Data, token: string, now: int)
    requires Authenticate(d, token, now).1.Ok?
    ensures var name := Authenticate(d, token, now).1.value.0.user;
            var off := SetDisabled(d, name, true, true).0;
            Authenticate(off, token, now).1 == Err(Disabled)
            && Authenticate(SetDisabled(off, name, false, true).0, token, now).1.Ok?
  {}

  /** Deleting an account does, for good: its tokens stay dead even if the name is taken
      again. */
  lemma DeletingKillsTokens(d: Data, token: string, now: int, key: Bytes, saves: bool)
    requires Authenticate(d, token, now).1.Ok?
    ensures var name := Authenticate(d, token, now).1.value.0.user;
            var gone := DeleteUser(d, name, saves).0;
            Authenticate(gone, token, now).1 == Err(BadLogin)
            && Authenticate(Register(gone, name, key, "", false, now, saves).0, token, now).1 == Err(BadLogin)
  {}

  /** A registration that fails has still changed something exactly when nothing was
      wrong with it and only the file could not be written: then the account exists
      although the caller is told otherwise. */
  lemma FailedRegistration(d: Data, name: string, key: Bytes, invite: string, needInvite: bool, now: int, saves: bool)
    ensures var (d', r) := Register(d, name, key, invite, needInvite, now, saves);
            r.Err? && d' != d <==>
            && !saves && ValidName(name) && |key| == KEY_SIZE && name !in d.users
            && (needInvite && d.users != map[] ==> InviteAccepted(d, invite, now))
  {
    hide Normalize, Spend, ValidName, InviteAccepted;
    var (d', r) := Register(d, name, key, invite, needInvite, now, saves);
    if r == Err(NotSaved) { assert name in d'.users && name !in d.users; }
  }
}
