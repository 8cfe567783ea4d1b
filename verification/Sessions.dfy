/** Who gets in: which key opens an account, which requests begin and end a session, and what
    a token is good for (internal/server/store.go, server.go). */
module Sessions {
  import opened Basics
  import opened Codes
  import opened Store
  import opened Accounts

  // ---- Keys ----

  /** The account has this key. */
  predicate HasKey(d: Data, name: string, key: Bytes) {
    name in d.users && d.users[name].auth == OfKey(key)
  }

  /** What signing in says, for an account with a given key. */
  lemma LoginExactly(d: Data, name: string, key: Bytes, k: Bytes)
    requires HasKey(d, name, key)
    ensures CheckLogin(d, name, k) == if k != key then Err(BadLogin) else if d.users[name].disabled then Err(Disabled) else Ok(d.users[name])
    ensures forall other | other !in d.users :: CheckLogin(d, other, k) == Err(BadLogin)
  {}

  /** Whether a registration makes an account, decided by its inputs. */
  predicate Admissible(d: Data, e: Event, needInvite: bool)
    requires e.SignUp?
  {
    && ValidName(e.name) && |e.key| == 32 && e.name !in d.users
    && if d.users == map[] then e.nearby else !needInvite || InviteAccepted(d, e.invite, e.now)
  }

  /** A registration makes an account exactly when it is admissible; the first one must come
      from nearby and needs no invite. The account opens with its key and no other, is an
      admin's if it is the first, and is enabled; all other accounts are as they were. */
  lemma SignUpExactly(d: Data, e: Event, needInvite: bool, k: Bytes)
    requires e.SignUp?
    ensures var d' := SignUpStep(d, e, needInvite).0;
            && (d'.users != d.users <==> Admissible(d, e, needInvite))
            && (Admissible(d, e, needInvite) ==> d'.users.Keys == d.users.Keys + {e.name} && HasKey(d', e.name, e.key))
            && (Admissible(d, e, needInvite) ==> (CheckLogin(d', e.name, k).Ok? <==> k == e.key))
            && (Admissible(d, e, needInvite) ==> (d'.users[e.name].admin <==> d.users == map[]))
            && forall n | n in d.users :: n in d'.users && d'.users[n] == d.users[n]
  {
    hide ValidName, InviteAccepted, Spend, Normalize;
    var d' := SignUpStep(d, e, needInvite).0;
    if Admissible(d, e, needInvite) { assert e.name in d'.users; }
  }

  // ---- Sessions ----

  /** The token resolves to this account. */
  predicate Acts(d: Data, token: string, name: string) {
    OfToken(token) in d.sessions && d.sessions[OfToken(token)].user == name && name in d.users && !d.users[name].disabled
  }

  /** A session is noted as seen at most once an hour. */
  function SeenAt(was: int, now: int): int {
    if now - was > 3_600_000_000_000 then now else was
  }

  lemma ResolvesExactly(d: Data, token: string, now: int)
    ensures var (d', r) := Authenticate(d, token, now);
            && (r.Ok? <==> exists name :: Acts(d, token, name))
            && (r.Ok? ==> r.value.1 == d.users[d.sessions[OfToken(token)].user] && r.value.0.device == d.sessions[OfToken(token)].device)
            && (r.Ok? ==> d'.sessions[OfToken(token)] == r.value.0 && r.value.0.lastSeen == SeenAt(d.sessions[OfToken(token)].lastSeen, now))
            && d'.sessions.Keys == d.sessions.Keys && d'.users == d.users
            && forall k | k in d.sessions :: d'.sessions[k].user == d.sessions[k].user && d'.sessions[k].device == d.sessions[k].device
  {
    if OfToken(token) in d.sessions { assert Acts(d, token, d.sessions[OfToken(token)].user) <==> Authenticate(d, token, now).1.Ok?; }
  }

  /** The request signs a device in. */
  predicate Admits(d: Data, e: Event, needInvite: bool) {
    (e.SignIn? && HasKey(d, e.name, e.key) && !d.users[e.name].disabled) || (e.SignUp? && Admissible(d, e, needInvite) && e.saves)
  }

  /** The request ends the session `s` held under `k`. */
  ghost predicate EndsSession(d: Data, e: Event, needInvite: bool, k: Digest, s: Session) {
    match e
    case SignIn(name, _, device, _, _) => Admits(d, e, needInvite) && s.user == name && s.device.id == device.id
    case SignUp(name, _, _, _, device, _, _, _) => Admits(d, e, needInvite) && s.user == name && s.device.id == device.id
    case SignOut(token, _) => k == OfToken(token) && Acts(d, token, s.user)
    case Forget(token, id, _, _) => Acts(d, token, s.user) && s.device.id == id
    case Delete(token, target, _, _) =>
      s.user == target && target in d.users && exists me :: Acts(d, token, me) && d.users[me].admin && me != target
    case _ => false
  }

  predicate SameHolder(s: Session, t: Session) {
    s.user == t.user && s.device == t.device
  }

  /** The same sessions, but perhaps for when they were last seen. */
  ghost predicate SameSessions(d: Data, d': Data) {
    d'.sessions.Keys == d.sessions.Keys && forall k | k in d.sessions :: SameHolder(d'.sessions[k], d.sessions[k])
  }

  lemma AdmittedBegins(d: Data, name: string, device: Device, token: string, now: int)
    ensures var d' := NewSession(d, name, device, token, now);
            && d'.users == d.users && OfToken(token) in d'.sessions && d'.sessions[OfToken(token)] == Session(name, device, now)
            && (forall k | k != OfToken(token) :: k in d'.sessions <==> k in d.sessions && !(d.sessions[k].user == name && d.sessions[k].device.id == device.id))
            && (forall k | k != OfToken(token) && k in d'.sessions :: d'.sessions[k] == d.sessions[k])
  {}

  lemma SignUpSessions(d: Data, e: Event, needInvite: bool, k: Digest)
    requires e.SignUp?
    ensures var d' := SignUpStep(d, e, needInvite).0;
            if k == OfToken(e.token) && Admits(d, e, needInvite) then k in d'.sessions && d'.sessions[k] == Session(e.name, e.device, e.now)
            else (k in d'.sessions <==> k in d.sessions && !EndsSession(d, e, needInvite, k, d.sessions[k]))
                 && (k in d'.sessions ==> d'.sessions[k] == d.sessions[k])
  {
    hide ValidName, InviteAccepted, Spend, Normalize, NewSession;
    var d1 := Register(d, e.name, e.key, e.invite, needInvite, e.now, e.saves).0;
    AdmittedBegins(d1, e.name, e.device, e.token, e.now);
  }

  /** What an admin's request does to one session. */
  lemma AdminEnds(d: Data, me: User, e: Event, k: Digest)
    ensures var d' := AdminStep(d, me, e).0;
            && (k in d'.sessions <==>
                k in d.sessions && !(e.Delete? && d.sessions[k].user == e.target && e.target in d.users && e.target != me.name))
            && (k in d'.sessions ==> d'.sessions[k] == d.sessions[k])
  {
    OtherListsApart(d, e);
    hide Normalize, FormatInvite, Left, DropLapsed, CreateInvite, RevokeInvite, Lapsing;
  }

  lemma AdminStepIs(d: Data, e: Event, needInvite: bool)
    requires e.Patch? || e.Delete? || e.Invites? || e.Offer? || e.Withdraw?
    ensures var (d1, me) := Admin(d, e.token, e.now);
            Step(d, e, needInvite) == if me.None? then (d1, Nothing) else AdminStep(d1, me.value, e)
  {
    hide AdminStep, Admin;
  }

  lemma AdminSessions(d: Data, e: Event, needInvite: bool, k: Digest)
    requires Named(d.users) && (e.Patch? || e.Delete? || e.Invites? || e.Offer? || e.Withdraw?)
    ensures var d' := Step(d, e, needInvite).0;
            (k in d'.sessions <==> k in d.sessions && !EndsSession(d, e, needInvite, k, d.sessions[k]))
            && (k in d'.sessions ==> SameHolder(d'.sessions[k], d.sessions[k]))
  {
    ResolvesExactly(d, e.token, e.now);
    var (d1, me) := Admin(d, e.token, e.now);
    if me.Some? { assert Acts(d, e.token, me.value.name) && d.users[me.value.name] == me.value; }
    if exists n :: Acts(d, e.token, n) && d.users[n].admin { assert me.Some?; }
    AdminStepIs(d, e, needInvite);
    hide Authenticate, AdminStep, Step, Named;
    if me.Some? { AdminEnds(d1, me.value, e, k); }
  }

  /** What signing out and forgetting a device do. */
  lemma OwnSessions(d: Data, e: Event, needInvite: bool, k: Digest)
    requires Named(d.users) && (e.SignOut? || e.Forget?)
    ensures var d' := Step(d, e, needInvite).0;
            (k in d'.sessions <==> k in d.sessions && !EndsSession(d, e, needInvite, k, d.sessions[k]))
            && (k in d'.sessions ==> SameHolder(d'.sessions[k], d.sessions[k]))
  {
    ResolvesExactly(d, e.token, e.now);
    var (d1, r) := Authenticate(d, e.token, e.now);
    if r.Ok? { assert Acts(d, e.token, r.value.1.name); }
    hide Authenticate, Named;
  }

  /** Which sessions there are after a request, for every token: the one it begins, if it
      admits a device, and those there were but for the ones it ends; and whose they are. */
  lemma SessionsExactly(d: Data, e: Event, needInvite: bool, k: Digest)
    requires Named(d.users)
    ensures var d' := Step(d, e, needInvite).0;
            if (e.SignIn? || e.SignUp?) && k == OfToken(e.token) && Admits(d, e, needInvite)
            then k in d'.sessions && d'.sessions[k] == Session(e.name, e.device, e.now)
            else (k in d'.sessions <==> k in d.sessions && !EndsSession(d, e, needInvite, k, d.sessions[k]))
                 && (k in d'.sessions ==> SameHolder(d'.sessions[k], d.sessions[k]))
  {
    match e
    case SignUp(_, _, _, _, _, _, _, _) => SignUpSessions(d, e, needInvite, k); SignUpIsAStep(d, e, needInvite);
    case SignIn(name, key, device, token, now) =>
      AdmittedBegins(d, name, device, token, now);
      hide NewSession;
    case SignOut(token, now) => OwnSessions(d, e, needInvite, k);
    case Forget(token, id, now, saves) => OwnSessions(d, e, needInvite, k);
    case _ => AdminSessions(d, e, needInvite, k);
  }

  // ---- Accounts ----

  /** An enabled admin asks. */
  ghost predicate ByAdmin(d: Data, token: string, me: string) {
    Acts(d, token, me) && d.users[me].admin
  }

  ghost predicate DeletesAccount(d: Data, e: Event, name: string) {
    e.Delete? && e.target == name && name in d.users && exists me :: ByAdmin(d, e.token, me) && me != name
  }

  lemma AskedBy(d: Data, e: Event)
    requires Named(d.users) && (e.Patch? || e.Delete? || e.Invites? || e.Offer? || e.Withdraw?)
    ensures var (d1, me) := Admin(d, e.token, e.now);
            && d1.users == d.users && (me.Some? <==> exists n :: ByAdmin(d, e.token, n))
            && (me.Some? ==> ByAdmin(d, e.token, me.value.name) && forall n | ByAdmin(d, e.token, n) :: n == me.value.name)
  {
    ResolvesExactly(d, e.token, e.now);
    var (d1, me) := Admin(d, e.token, e.now);
    if me.Some? { assert ByAdmin(d, e.token, me.value.name); }
  }

  /** What a request does to an account: an admissible registration makes one, an enabled
      admin deletes another's, and only an admin's patch of it changes it. */
  lemma AccountsExactly(d: Data, e: Event, needInvite: bool, name: string)
    requires Named(d.users)
    ensures var d' := Step(d, e, needInvite).0;
            && (name in d'.users <==> (name in d.users && !DeletesAccount(d, e, name))
                                      || (e.SignUp? && e.name == name && Admissible(d, e, needInvite)))
            && (name in d.users && name in d'.users ==>
                  && d'.users[name].auth == d.users[name].auth
                  && (d'.users[name] != d.users[name] ==> e.Patch? && e.target == name && exists me :: ByAdmin(d, e.token, me)))
  {
    match e
    case SignUp(_, _, _, _, _, _, _, _) => SignUpExactly(d, e, needInvite, []); SignUpIsAStep(d, e, needInvite);
    case SignIn(_, _, _, _, _) =>
    case SignOut(token, now) => ResolvesExactly(d, token, now);
    case Forget(token, id, now, saves) => ResolvesExactly(d, token, now);
    case _ => AdminAccounts(d, e, needInvite, name);
  }

  lemma AdminAccounts(d: Data, e: Event, needInvite: bool, name: string)
    requires Named(d.users) && (e.Patch? || e.Delete? || e.Invites? || e.Offer? || e.Withdraw?)
    ensures var d' := Step(d, e, needInvite).0;
            && (name in d'.users <==> name in d.users && !DeletesAccount(d, e, name))
            && (name in d.users && name in d'.users ==>
                  && d'.users[name].auth == d.users[name].auth
                  && (d'.users[name] != d.users[name] ==> e.Patch? && e.target == name && exists me :: ByAdmin(d, e.token, me)))
  {
    AskedBy(d, e);
    hide Normalize, FormatInvite, Left, Authenticate, ByAdmin, Named, DropLapsed, CreateInvite, RevokeInvite, Lapsing;
    OtherListsApart(d, e);
    var (d1, me) := Admin(d, e.token, e.now);
    if me.Some? { OtherListsApart(d1, e); }
  }

  /** Requests about invites leave accounts and sessions alone. */
  lemma OtherListsApart(d: Data, e: Event)
    ensures e.Invites? ==> var d' := DropLapsed(d, e.now); d'.users == d.users && d'.sessions == d.sessions
    ensures e.Withdraw? ==> var d' := RevokeInvite(d, e.code, e.saves).0; d'.users == d.users && d'.sessions == d.sessions
    ensures e.Offer? ==> forall me :: var d' := CreateInvite(d, me, e.uses, e.valid, e.note, e.code, e.now, e.saves).0; d'.users == d.users && d'.sessions == d.sessions
  {}

  /** An admin's patch sets what it names and nothing else, unless it would take the admin's
      own rights away. */
  lemma PatchExactly(d: Data, token: string, me: string, target: string, disabled: Option<bool>, admin: Option<bool>, now: int)
    requires Named(d.users) && ByAdmin(d, token, me) && target in d.users
    ensures var d' := Step(d, Patch(token, target, disabled, admin, now, true, true), true).0;
            var own := me == target && (disabled == Some(true) || admin == Some(false));
            var u := d.users[target];
            d'.users == if own then d.users
                        else d.users[target := u.(disabled := if disabled.Some? then disabled.value else u.disabled,
                                                  admin := if admin.Some? then admin.value else u.admin)]
  {
    AskedBy(d, Patch(token, target, disabled, admin, now, true, true));
    hide Authenticate;
  }

  // ---- Over whole runs ----

  lemma StepWorldOk(w: World, e: Event, needInvite: bool)
    requires WorldOk(w) && Enabled(w.data, e)
    ensures WorldOk(Next(w, e, needInvite)) && Named(w.data.users)
  {
    hide Step, Enabled, PeopleOk;
    assert [e][1..] == [];
    RunKeeps(w, [e], needInvite);
    NamedWorld(w);
  }

  lemma NamedWorld(w: World)
    requires WorldOk(w)
    ensures Named(w.data.users) && SessionsOk(w.data)
  {}

  /** The account is there all along. */
  ghost predicate Persists(w: World, es: seq<Event>, needInvite: bool, name: string)
    decreases |es|
  {
    name in w.data.users && (es == [] || Persists(Next(w, es[0], needInvite), es[1..], needInvite, name))
  }

  lemma {:induction false} KeyStays(w: World, es: seq<Event>, needInvite: bool, name: string, key: Bytes)
    requires WorldOk(w) && Runs(w, es, needInvite) && Persists(w, es, needInvite, name) && HasKey(w.data, name, key)
    ensures HasKey(After(w, es, needInvite).data, name, key)
    decreases |es|
  {
    hide WorldOk, Step, Enabled;
    if es != [] {
      StepWorldOk(w, es[0], needInvite);
      AccountsExactly(w.data, es[0], needInvite, name);
      KeyStays(Next(w, es[0], needInvite), es[1..], needInvite, name, key);
    }
  }

  /** In every run: from the registration that made an account for as long as it exists,
      signing in succeeds with the key it was registered with and no other, unless the
      account is disabled. */
  lemma OnlyTheKeyOpens(before: seq<Event>, e: Event, es: seq<Event>, needInvite: bool, k: Bytes)
    requires e.SignUp? && Runs(FRESH, before, needInvite)
    requires var w := After(FRESH, before, needInvite);
             && Admissible(w.data, e, needInvite) && Enabled(w.data, e)
             && Runs(Next(w, e, needInvite), es, needInvite) && Persists(Next(w, e, needInvite), es, needInvite, e.name)
    ensures var d := After(Next(After(FRESH, before, needInvite), e, needInvite), es, needInvite).data;
            && e.name in d.users
            && CheckLogin(d, e.name, k) == if k != e.key then Err(BadLogin) else if d.users[e.name].disabled then Err(Disabled) else Ok(d.users[e.name])
  {
    var w := After(FRESH, before, needInvite);
    assert WorldOk(FRESH);
    RunKeeps(FRESH, before, needInvite);
    StepWorldOk(w, e, needInvite);
    SignUpIsAStep(w.data, e, needInvite);
    SignUpExactly(w.data, e, needInvite, k);
    hide WorldOk, Admissible, SignUpStep, Step, Enabled;
    KeyStays(Next(w, e, needInvite), es, needInvite, e.name, e.key);
    LoginExactly(After(Next(w, e, needInvite), es, needInvite).data, e.name, e.key, k);
  }

  /** Nothing in the run ends the session. */
  ghost predicate Lasts(w: World, es: seq<Event>, needInvite: bool, k: Digest)
    decreases |es|
  {
    k in w.data.sessions
    && (es == [] || (!EndsSession(w.data, es[0], needInvite, k, w.data.sessions[k]) && Lasts(Next(w, es[0], needInvite), es[1..], needInvite, k)))
  }

  /** A new session is under a new token. */
  lemma NewIsNew(d: Data, e: Event, k: Digest)
    requires Accounts.Enabled(d, e) && k in d.sessions && (e.SignIn? || e.SignUp?)
    ensures k != OfToken(e.token)
  {}

  lemma {:induction false} SessionStays(w: World, es: seq<Event>, needInvite: bool, k: Digest)
    requires WorldOk(w) && Runs(w, es, needInvite) && Lasts(w, es, needInvite, k)
    ensures var w' := After(w, es, needInvite);
            WorldOk(w') && k in w'.data.sessions && SameHolder(w'.data.sessions[k], w.data.sessions[k])
    decreases |es|
  {
    hide WorldOk, Step, EndsSession;
    if es != [] {
      StepWorldOk(w, es[0], needInvite);
      SessionsExactly(w.data, es[0], needInvite, k);
      if es[0].SignIn? || es[0].SignUp? { NewIsNew(w.data, es[0], k); }
      SessionStays(Next(w, es[0], needInvite), es[1..], needInvite, k);
    }
  }

  /** In every run a device that was let in stays signed in: until a request ends its
      session, its token resolves to the account and the device it was issued to, at every
      moment at which the account is enabled. */
  lemma SignedInUntilEnded(before: seq<Event>, e: Event, es: seq<Event>, needInvite: bool, now: int)
    requires (e.SignIn? || e.SignUp?) && Runs(FRESH, before, needInvite)
    requires var w := After(FRESH, before, needInvite);
             && Admits(w.data, e, needInvite) && Enabled(w.data, e)
             && Runs(Next(w, e, needInvite), es, needInvite) && Lasts(Next(w, e, needInvite), es, needInvite, OfToken(e.token))
    ensures var d := After(Next(After(FRESH, before, needInvite), e, needInvite), es, needInvite).data;
            var r := Authenticate(d, e.token, now).1;
            && e.name in d.users && (r.Ok? <==> !d.users[e.name].disabled)
            && (r.Ok? ==> r.value.1 == d.users[e.name] && r.value.0.user == e.name && r.value.0.device == e.device)
  {
    var w := After(FRESH, before, needInvite);
    assert WorldOk(FRESH);
    RunKeeps(FRESH, before, needInvite);
    StepWorldOk(w, e, needInvite);
    SessionsExactly(w.data, e, needInvite, OfToken(e.token));
    hide WorldOk, Admits, Step, Accounts.Enabled, Lasts;
    var w1 := Next(w, e, needInvite);
    SessionStays(w1, es, needInvite, OfToken(e.token));
    NamedWorld(After(w1, es, needInvite));
  }
}
