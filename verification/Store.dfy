/** The account store (internal/server/store.go). */
module Store {
  import opened Basics
  import opened Codes

  /** SHA-256, idealised as injective. */
  datatype Digest = OfKey(key: Bytes) | OfToken(token: string)

  datatype User = User(name: string, auth: Digest, admin: bool, disabled: bool)

  /** No expiry is None. */
  datatype Invite = Invite(code: string, createdBy: string, expires: Option<int>, usesLeft: int, note: string)

  datatype Device = Device(id: string, name: string, kind: string)

  datatype Session = Session(user: string, device: Device, lastSeen: int)

  datatype Data = Data(users: map<string, User>, invites: map<string, Invite>, sessions: map<Digest, Session>)

  datatype Fault = BadUsername | BadAuthKey | BadInvite | Taken | BadLogin | Disabled | NotFound | NotSaved

  datatype Outcome<T> = Ok(value: T) | Err(fault: Fault)

  const HOUR := 3600 * 1_000_000_000
  const KEY_SIZE := 32

  predicate NameStart(c: char) {
    'a' <= c <= 'z' || '0' <= c <= '9'
  }

  predicate ValidName(name: string) {
    3 <= |name| <= 32 && NameStart(name[0]) && forall c | c in name :: NameStart(c) || c in "._-"
  }

  predicate Lapsed(i: Invite, now: int) {
    i.expires.Some? && now > i.expires.value
  }

  /** The reply when the change was made; whether the file could be written comes last. */
  function Saved<T>(ok: bool, value: T): Outcome<T> {
    if ok then Ok(value) else Err(NotSaved)
  }

  // ---- What each operation does ----

  predicate InviteAccepted(d: Data, invite: string, now: int) {
    var c := Normalize(invite);
    c in d.invites && d.invites[c].usesLeft > 0 && !Lapsed(d.invites[c], now)
  }

  function Spend(invites: map<string, Invite>, c: string): map<string, Invite>
    requires c in invites
  {
    var i := invites[c].(usesLeft := invites[c].usesLeft - 1);
    if i.usesLeft <= 0 then invites[c := i] - {i.code} else invites[c := i]
  }

  /** Register for a normalised name. */
  function Register(d: Data, name: string, key: Bytes, invite: string, needInvite: bool, now: int, saves: bool): (Data, Outcome<User>) {
    if !ValidName(name) then (d, Err(BadUsername))
    else if |key| != KEY_SIZE then (d, Err(BadAuthKey))
    else
      var first := d.users == map[];
      if needInvite && !first && !InviteAccepted(d, invite, now) then (d, Err(BadInvite))
      else if name in d.users then (d, Err(Taken))
      else
        var u := User(name, OfKey(key), first, false);
        (d.(users := d.users[name := u], invites := if needInvite && !first then Spend(d.invites, Normalize(invite)) else d.invites),
         Saved(saves, u))
  }

  function CheckLogin(d: Data, name: string, key: Bytes): Outcome<User> {
    if name !in d.users || d.users[name].auth != OfKey(key) then Err(BadLogin)
    else if d.users[name].disabled then Err(Disabled)
    else Ok(d.users[name])
  }

  predicate SameDevice(s: Session, user: string, id: string) {
    s.user == user && s.device.id == id
  }

  function NewSession(d: Data, user: string, device: Device, token: string, now: int): Data {
    d.(sessions := (map k | k in d.sessions && !SameDevice(d.sessions[k], user, device.id) :: d.sessions[k])
                   [OfToken(token) := Session(user, device, now)])
  }

  function Authenticate(d: Data, token: string, now: int): (Data, Outcome<(Session, User)>) {
    var k := OfToken(token);
    if k !in d.sessions || d.sessions[k].user !in d.users then (d, Err(BadLogin))
    else
      var s, u := d.sessions[k], d.users[d.sessions[k].user];
      if u.disabled then (d, Err(Disabled))
      else
        var s' := if now - s.lastSeen > HOUR then s.(lastSeen := now) else s;
        (d.(sessions := d.sessions[k := s']), Ok((s', u)))
  }

  function Logout(d: Data, token: string): Data {
    d.(sessions := d.sessions - {OfToken(token)})
  }

  function RevokeDevice(d: Data, user: string, id: string, saves: bool): (Data, Outcome<()>) {
    if forall k | k in d.sessions :: !SameDevice(d.sessions[k], user, id) then (d, Err(NotFound))
    else (d.(sessions := map k | k in d.sessions && !SameDevice(d.sessions[k], user, id) :: d.sessions[k]), Saved(saves, ()))
  }

  function SetDisabled(d: Data, name: string, disabled: bool, saves: bool): (Data, Outcome<()>) {
    if name !in d.users then (d, Err(NotFound))
    else (d.(users := d.users[name := d.users[name].(disabled := disabled)]), Saved(saves, ()))
  }

  function SetAdmin(d: Data, name: string, admin: bool, saves: bool): (Data, Outcome<()>) {
    if name !in d.users then (d, Err(NotFound))
    else (d.(users := d.users[name := d.users[name].(admin := admin)]), Saved(saves, ()))
  }

  function DeleteUser(d: Data, name: string, saves: bool): (Data, Outcome<()>) {
    if name !in d.users then (d, Err(NotFound))
    else (d.(users := d.users - {name}, sessions := map k | k in d.sessions && d.sessions[k].user != name :: d.sessions[k]),
          Saved(saves, ()))
  }

  /** `code` is the random code drawn; the reply shows it dashed. */
  function CreateInvite(d: Data, creator: string, uses: int, valid: int, note: string, code: string, now: int, saves: bool): (Data, Outcome<Invite>) {
    var i := Invite(code, creator, if valid > 0 then Some(now + valid) else None, if uses <= 0 then 1 else uses, note);
    (d.(invites := d.invites[code := i]), Saved(saves, i.(code := FormatInvite(code))))
  }

  function DropLapsed(d: Data, now: int): Data {
    d.(invites := map c | c in d.invites && !Lapsed(d.invites[c], now) :: d.invites[c])
  }

  function RevokeInvite(d: Data, code: string, saves: bool): (Data, Outcome<()>) {
    var c := Normalize(code);
    if c !in d.invites then (d, Err(NotFound)) else (d.(invites := d.invites - {c}), Saved(saves, ()))
  }

  // ---- The store ----

  class Store {
    var users: map<string, User>
    var invites: map<string, Invite>
    var sessions: map<Digest, Session>

    constructor ()
      ensures State() == Data(map[], map[], map[])
    {
      users, invites, sessions := map[], map[], map[];
    }

    function State(): Data
      reads this
    {
      Data(users, invites, sessions)
    }

    method RegisterUser(name: string, key: Bytes, invite: string, needInvite: bool, now: int, saves: bool) returns (r: Outcome<User>)
      modifies this
      ensures (State(), r) == Register(old(State()), name, key, invite, needInvite, now, saves)
    {
      if !ValidName(name) { return Err(BadUsername); }
      if |key| != KEY_SIZE { return Err(BadAuthKey); }
      var first := |users| == 0;
      var inv: Option<string> := None;
      if needInvite && !first {
        var c := NormalizeCode(invite);
        if c !in invites || invites[c].usesLeft <= 0 || Lapsed(invites[c], now) { return Err(BadInvite); }
        inv := Some(c);
      }
      if name in users { return Err(Taken); }
      var u := User(name, OfKey(key), first, false);
      users := users[name := u];
      if inv.Some? {
        var c := inv.value;
        invites := invites[c := invites[c].(usesLeft := invites[c].usesLeft - 1)];
        if invites[c].usesLeft <= 0 { invites := invites - {invites[c].code}; }
      }
      r := Saved(saves, u);
    }

    /** Delete the sessions of one device of one user, one key after another. */
    method DropDevice(user: string, id: string) returns (found: bool)
      modifies this`sessions
      ensures sessions == map k | k in old(sessions) && !SameDevice(old(sessions)[k], user, id) :: old(sessions)[k]
      ensures found <==> exists k :: k in old(sessions) && SameDevice(old(sessions)[k], user, id)
    {
      var keys := sessions.Keys;
      found := false;
      while keys != {}
        invariant keys <= old(sessions).Keys
        invariant sessions == map k | k in old(sessions) && (k in keys || !SameDevice(old(sessions)[k], user, id)) :: old(sessions)[k]
        invariant found <==> exists k :: k in old(sessions) && k !in keys && SameDevice(old(sessions)[k], user, id)
        decreases |keys|
      {
        var k :| k in keys;
        if SameDevice(sessions[k], user, id) {
          sessions := sessions - {k};
          found := true;
        }
        keys := keys - {k};
      }
    }

    method IssueSession(user: string, device: Device, token: string, now: int)
      modifies this`sessions
      ensures State() == NewSession(old(State()), user, device, token, now)
    {
      var found := DropDevice(user, device.id);
      sessions := sessions[OfToken(token) := Session(user, device, now)];
    }

    method Resolve(token: string, now: int) returns (r: Outcome<(Session, User)>)
      modifies this`sessions
      ensures (State(), r) == Authenticate(old(State()), token, now)
    {
      var k := OfToken(token);
      if k !in sessions { return Err(BadLogin); }
      if sessions[k].user !in users { return Err(BadLogin); }
      var u := users[sessions[k].user];
      if u.disabled { return Err(Disabled); }
      if now - sessions[k].lastSeen > HOUR { sessions := sessions[k := sessions[k].(lastSeen := now)]; }
      assert sessions == old(sessions)[k := sessions[k]];
      r := Ok((sessions[k], u));
    }

    method SignOutDevice(user: string, id: string, saves: bool) returns (r: Outcome<()>)
      modifies this`sessions
      ensures (State(), r) == RevokeDevice(old(State()), user, id, saves)
    {
      var found := DropDevice(user, id);
      if !found {
        assert sessions == old(sessions);
        return Err(NotFound);
      }
      r := Saved(saves, ());
    }

    method Disable(name: string, disabled: bool, saves: bool) returns (r: Outcome<()>)
      modifies this`users
      ensures (State(), r) == SetDisabled(old(State()), name, disabled, saves)
    {
      if name !in users { return Err(NotFound); }
      users := users[name := users[name].(disabled := disabled)];
      r := Saved(saves, ());
    }

    method Promote(name: string, admin: bool, saves: bool) returns (r: Outcome<()>)
      modifies this`users
      ensures (State(), r) == SetAdmin(old(State()), name, admin, saves)
    {
      if name !in users { return Err(NotFound); }
      users := users[name := users[name].(admin := admin)];
      r := Saved(saves, ());
    }

    method Remove(name: string, saves: bool) returns (r: Outcome<()>)
      modifies this
      ensures (State(), r) == DeleteUser(old(State()), name, saves)
    {
      if name !in users { return Err(NotFound); }
      users := users - {name};
      var keys := sessions.Keys;
      while keys != {}
        invariant keys <= old(sessions).Keys && users == old(users) - {name} && invites == old(invites)
        invariant sessions == map k | k in old(sessions) && (k in keys || old(sessions)[k].user != name) :: old(sessions)[k]
        decreases |keys|
      {
        var k :| k in keys;
        if sessions[k].user == name { sessions := sessions - {k}; }
        keys := keys - {k};
      }
      assert sessions == map k | k in old(sessions) && old(sessions)[k].user != name :: old(sessions)[k];
      r := Saved(saves, ());
    }

    method AddInvite(creator: string, uses: int, valid: int, note: string, code: string, now: int, saves: bool) returns (r: Outcome<Invite>)
      modifies this`invites
      ensures (State(), r) == CreateInvite(old(State()), creator, uses, valid, note, code, now, saves)
    {
      var n := uses;
      if n <= 0 { n := 1; }
      var i := Invite(code, creator, None, n, note);
      if valid > 0 { i := i.(expires := Some(now + valid)); }
      invites := invites[code := i];
      r := Saved(saves, i.(code := FormatInvite(code)));
    }

    /** Invites: drop the expired ones and list the others. */
    method ListInvites(now: int) returns (out: set<Invite>)
      modifies this`invites
      ensures State() == DropLapsed(old(State()), now)
      ensures out == set c | c in invites :: invites[c].(code := FormatInvite(invites[c].code))
    {
      var keys := invites.Keys;
      out := {};
      while keys != {}
        invariant keys <= old(invites).Keys
        invariant invites == map c | c in old(invites) && (c in keys || !Lapsed(old(invites)[c], now)) :: old(invites)[c]
        invariant out == set c | c in invites && c !in keys :: invites[c].(code := FormatInvite(invites[c].code))
        decreases |keys|
      {
        var c :| c in keys;
        if Lapsed(invites[c], now) {
          invites := invites - {c};
        } else {
          out := out + {invites[c].(code := FormatInvite(invites[c].code))};
        }
        keys := keys - {c};
      }
    }

    method DropInvite(code: string, saves: bool) returns (r: Outcome<()>)
      modifies this`invites
      ensures (State(), r) == RevokeInvite(old(State()), code, saves)
    {
      var c := NormalizeCode(code);
      if c !in invites { return Err(NotFound); }
      invites := invites - {c};
      r := Saved(saves, ());
    }
  }
}
