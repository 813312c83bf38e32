/** Users, devices and refresh tokens: registration, login, rotation, logout and device revocation. */
module Auth {
  import opened Base

  datatype Device = Device(user: Id, revoked: bool)

  datatype Token = Token(id: Id, user: Id, device: Id, expires: Time, revoked: bool)

  /** `tokens` is keyed by the unique token hash. `root` is history: the hash a token's rotation chain began with. */
  datatype Tables = Tables(users: map<Id, string>, devices: map<Id, Device>, tokens: map<Bytes, Token>,
                           root: map<Bytes, Bytes>)

  const EMPTY := Tables(map[], map[], map[], map[])

  datatype Session = Session(id: Id, hash: Bytes, expires: Time)

  datatype Call =
    | Register(user: Id, login: string, device: Id, session: Session)
    | Login(user: Id, device: Id, session: Session)
    | Rotate(hash: Bytes, device: Id, now: Time, session: Session)
    | Logout(hash: Bytes)
    | RevokeDevice(user: Id, device: Id)

  // ---------------------------------------------------------------- statements

  predicate CanInsertUser(t: Tables, user: Id, login: string) {
    user !in t.users && forall u | u in t.users :: t.users[u] != login
  }

  /** The row is this user's; a new one needs the user's row. */
  predicate CanUseDevice(t: Tables, user: Id, device: Id) {
    if device in t.devices then t.devices[device].user == user else user in t.users
  }

  predicate CanInsertToken(t: Tables, user: Id, device: Id, s: Session) {
    && user in t.users && device in t.devices
    && s.hash !in t.tokens && forall h | h in t.tokens :: t.tokens[h].id != s.id
  }

  function WithDevice(t: Tables, user: Id, device: Id): Tables {
    t.(devices := t.devices[device := Device(user, false)])
  }

  function WithToken(t: Tables, user: Id, device: Id, s: Session, root: Bytes): Tables {
    t.(tokens := t.tokens[s.hash := Token(s.id, user, device, s.expires, false)], root := t.root[s.hash := root])
  }

  function WithoutToken(t: Tables, hash: Bytes): Tables {
    if hash in t.tokens then t.(tokens := t.tokens[hash := t.tokens[hash].(revoked := true)]) else t
  }

  function WithoutDevice(t: Tables, user: Id, device: Id): Tables {
    t.(devices := if device in t.devices && t.devices[device].user == user then t.devices[device := Device(user, true)]
       else t.devices,
       tokens := map h | h in t.tokens :: if t.tokens[h].user == user && t.tokens[h].device == device
         then t.tokens[h].(revoked := true)
                                          else t.tokens[h])
  }

  /** The row RotateRefresh selects. */
  predicate Rotatable(t: Tables, hash: Bytes, device: Id, now: Time) {
    && hash in t.tokens && t.tokens[hash].device == device && !t.tokens[hash].revoked && t.tokens[hash].expires > now
    && device in t.devices && t.devices[device].user == t.tokens[hash].user && !t.devices[device].revoked
  }

  // ---------------------------------------------------------------- transactions

  function LoggedIn(t: Tables, user: Id, device: Id, s: Session): Option<Tables> {
    if !CanUseDevice(t, user, device) then None
    else
      var t1 := WithDevice(t, user, device);
      if CanInsertToken(t1, user, device, s) then Some(WithToken(t1, user, device, s, s.hash)) else None
  }

  function Rotated(t: Tables, hash: Bytes, device: Id, now: Time, s: Session): Option<Tables> {
    if !Rotatable(t, hash, device, now) then None
    else
      var t1 := WithoutToken(t, hash);
      if CanInsertToken(t1, t.tokens[hash].user, device, s)
      then Some(WithToken(t1, t.tokens[hash].user, device, s, if hash in t.root then t.root[hash] else hash)) else None
  }

  /** The committed effect of a call, or None when its transaction rolls back. */
  function Exec(t: Tables, c: Call): Option<Tables> {
    match c
    case Register(user, login, device, s) =>
      if CanInsertUser(t, user, login) then LoggedIn(t.(users := t.users[user := login]), user, device, s) else None
    case Login(user, device, s) => LoggedIn(t, user, device, s)
    case Rotate(hash, device, now, s) => Rotated(t, hash, device, now, s)
    case Logout(hash) => if hash in t.tokens && !t.tokens[hash].revoked then Some(WithoutToken(t, hash)) else None
    case RevokeDevice(user, device) =>
      if device in t.devices && t.devices[device].user == user then Some(WithoutDevice(t, user, device)) else None
  }

  function Step(t: Tables, c: Call): Tables {
    match Exec(t, c)
    case None => t
    case Some(t') => t'
  }

  function Run(t: Tables, calls: seq<Call>): Tables
    decreases |calls|
  {
    if calls == [] then t else Run(Step(t, calls[0]), calls[1..])
  }

  // ---------------------------------------------------------------- invariant

  /** A token belongs to a device row of its user; a revoked device has no live token. */
  ghost predicate TokenOk(t: Tables, h: Bytes)
    requires h in t.tokens
  {
    var tok := t.tokens[h];
    && tok.user in t.users && tok.device in t.devices && t.devices[tok.device].user == tok.user
    && (t.devices[tok.device].revoked ==> tok.revoked)
  }

  ghost predicate Live(t: Tables, h: Bytes) {
    h in t.tokens && !t.tokens[h].revoked
  }

  ghost predicate RootOk(t: Tables, h: Bytes) {
    h in t.root && t.root[h] in t.tokens
  }

  ghost predicate SameChain(t: Tables, h1: Bytes, h2: Bytes) {
    h1 in t.root && h2 in t.root && t.root[h1] == t.root[h2]
  }

  /** A chain has at most one live token. */
  ghost predicate ChainsOk(t: Tables) {
    && (forall h {:trigger RootOk(t, h)} | h in t.tokens :: RootOk(t, h))
    && forall h1, h2 | Live(t, h1) && Live(t, h2) && SameChain(t, h1, h2) :: h1 == h2
  }

  ghost predicate Inv(t: Tables) {
    (forall h | h in t.tokens :: TokenOk(t, h)) && ChainsOk(t)
  }

  /** Rows stay, keep their owners, and what was revoked stays revoked. */
  ghost predicate TokenLasts(t: Tables, t': Tables, h: Bytes) {
    h in t.tokens ==>
      h in t'.tokens && t'.tokens[h] == t.tokens[h].(revoked := t'.tokens[h].revoked)
        && (t.tokens[h].revoked ==> t'.tokens[h].revoked)
      && (h in t.root ==> h in t'.root && t'.root[h] == t.root[h])
  }

  /** Every token is as before or revoked, on the devices and users as before. */
  lemma FewerLive(t: Tables, t': Tables)
    requires ChainsOk(t) && t'.root == t.root && t'.tokens.Keys == t.tokens.Keys
    requires forall h | Live(t', h) :: Live(t, h)
    ensures ChainsOk(t')
  {
    forall h | h in t'.tokens ensures RootOk(t', h) { assert RootOk(t, h); }
    forall h1, h2 | Live(t', h1) && Live(t', h2) && SameChain(t', h1, h2) ensures h1 == h2 {
      assert Live(t, h1) && Live(t, h2) && SameChain(t, h1, h2);
    }
  }

  lemma DeviceKeepsInv(t: Tables, user: Id, device: Id)
    requires Inv(t) && CanUseDevice(t, user, device)
    ensures Inv(WithDevice(t, user, device))
  {
    var t' := WithDevice(t, user, device);
    FewerLive(t, t');
    hide ChainsOk;
    forall h | h in t'.tokens ensures TokenOk(t', h) { assert TokenOk(t, h); }
  }

  lemma InsertKeepsChains(t: Tables, user: Id, device: Id, s: Session, root: Bytes)
    requires ChainsOk(t) && s.hash !in t.tokens
    requires root == s.hash || (root in t.tokens && forall h | Live(t, h) && h in t.root :: t.root[h] != root)
    ensures ChainsOk(WithToken(t, user, device, s, root))
  {
    var t' := WithToken(t, user, device, s, root);
    forall h | h in t'.tokens ensures RootOk(t', h) { assert h != s.hash ==> RootOk(t, h); }
    forall h1, h2 | Live(t', h1) && Live(t', h2) && SameChain(t', h1, h2) ensures h1 == h2 {
      assert h1 != s.hash ==> Live(t, h1) && RootOk(t, h1);
      assert h2 != s.hash ==> Live(t, h2) && RootOk(t, h2);
      if h1 != s.hash && h2 != s.hash { assert SameChain(t, h1, h2); }
    }
  }

  lemma InsertKeepsInv(t: Tables, user: Id, device: Id, s: Session, root: Bytes)
    requires Inv(t) && CanInsertToken(t, user, device, s) && t.devices[device] == Device(user, false)
    requires root == s.hash || (root in t.tokens && forall h | Live(t, h) && h in t.root :: t.root[h] != root)
    ensures Inv(WithToken(t, user, device, s, root))
  {
    var t' := WithToken(t, user, device, s, root);
    hide ChainsOk;
    InsertKeepsChains(t, user, device, s, root);
    forall h | h in t'.tokens ensures TokenOk(t', h) { if h != s.hash { assert TokenOk(t, h); } }
  }

  lemma LoginKeepsInv(t: Tables, user: Id, device: Id, s: Session)
    requires Inv(t)
    ensures var r := LoggedIn(t, user, device, s); r.Some? ==> Inv(r.value)
  {
    hide Inv;
    if CanUseDevice(t, user, device) {
      var t1 := WithDevice(t, user, device);
      DeviceKeepsInv(t, user, device);
      if CanInsertToken(t1, user, device, s) { InsertKeepsInv(t1, user, device, s, s.hash); }
    }
  }

  lemma UserKeepsInv(t: Tables, user: Id, login: string)
    requires Inv(t) && user !in t.users
    ensures Inv(t.(users := t.users[user := login]))
  {
    var t' := t.(users := t.users[user := login]);
    FewerLive(t, t');
    hide ChainsOk;
    forall h | h in t'.tokens ensures TokenOk(t', h) { assert TokenOk(t, h); }
  }

  lemma RevokeKeepsInv(t: Tables, hash: Bytes)
    requires Inv(t)
    ensures Inv(WithoutToken(t, hash))
  {
    var t' := WithoutToken(t, hash);
    assert t'.tokens.Keys == t.tokens.Keys;
    FewerLive(t, t');
    hide ChainsOk;
    forall h | h in t'.tokens ensures TokenOk(t', h) { assert TokenOk(t, h); }
  }

  lemma RotateKeepsInv(t: Tables, hash: Bytes, device: Id, now: Time, s: Session)
    requires Inv(t)
    ensures var r := Rotated(t, hash, device, now, s); r.Some? ==> Inv(r.value)
  {
    if Rotated(t, hash, device, now, s).Some? {
      var t1 := WithoutToken(t, hash);
      RevokeKeepsInv(t, hash);
      assert RootOk(t, hash);
      var root := t.root[hash];
      assert root in t1.tokens;
      forall h | Live(t1, h) && h in t1.root ensures t1.root[h] != root {
        assert Live(t, h) && Live(t, hash);
        assert t1.root[h] == root ==> SameChain(t, h, hash);
      }
      hide Inv;
      InsertKeepsInv(t1, t.tokens[hash].user, device, s, root);
    }
  }

  lemma RevokeDeviceKeepsInv(t: Tables, user: Id, device: Id)
    requires Inv(t)
    ensures Inv(WithoutDevice(t, user, device))
  {
    var t' := WithoutDevice(t, user, device);
    assert t'.tokens.Keys == t.tokens.Keys;
    FewerLive(t, t');
    hide ChainsOk;
    forall h | h in t'.tokens ensures TokenOk(t', h) { assert TokenOk(t, h); }
  }

  lemma StepKeepsInv(t: Tables, c: Call)
    requires Inv(t)
    ensures Inv(Step(t, c))
  {
    hide Inv, Rotated, LoggedIn;
    match c
    case Register(user, login, device, s) =>
      if CanInsertUser(t, user, login) {
        UserKeepsInv(t, user, login);
        LoginKeepsInv(t.(users := t.users[user := login]), user, device, s);
      }
    case Login(user, device, s) => LoginKeepsInv(t, user, device, s);
    case Rotate(hash, device, now, s) => RotateKeepsInv(t, hash, device, now, s);
    case Logout(hash) => RevokeKeepsInv(t, hash);
    case RevokeDevice(user, device) => RevokeDeviceKeepsInv(t, user, device);
  }

  lemma {:induction false} RunKeepsInv(t: Tables, calls: seq<Call>)
    requires Inv(t)
    ensures Inv(Run(t, calls))
    decreases |calls|
  {
    hide Inv, Step;
    if calls != [] {
      StepKeepsInv(t, calls[0]);
      RunKeepsInv(Step(t, calls[0]), calls[1..]);
    }
  }

  lemma StepLasts(t: Tables, c: Call, h: Bytes)
    ensures TokenLasts(t, Step(t, c), h)
  {
  }

  lemma {:induction false} RunLasts(t: Tables, calls: seq<Call>, h: Bytes)
    ensures TokenLasts(t, Run(t, calls), h)
    decreases |calls|
  {
    hide Step;
    if calls != [] {
      StepLasts(t, calls[0], h);
      RunLasts(Step(t, calls[0]), calls[1..], h);
    }
  }

  // ---------------------------------------------------------------- theorems

  /** In every reachable state every token belongs to an existing device of its own user, a revoked device has no
      unrevoked token, and two unrevoked tokens never share a rotation chain. */
  lemma ChainsAndDevices(calls: seq<Call>)
    ensures var t := Run(EMPTY, calls);
            && (forall h | h in t.tokens ::
                  t.tokens[h].device in t.devices && t.devices[t.tokens[h].device].user == t.tokens[h].user)
            && (forall h | h in t.tokens ::
                  t.tokens[h].device in t.devices && t.devices[t.tokens[h].device].revoked ==> t.tokens[h].revoked)
            && forall h1, h2 | Live(t, h1) && Live(t, h2) && SameChain(t, h1, h2) :: h1 == h2
  {
    assert Inv(EMPTY);
    RunKeepsInv(EMPTY, calls);
    var t := Run(EMPTY, calls);
    assert forall h | h in t.tokens :: TokenOk(t, h);
    hide Run;
  }

  /** Nobody's token has this hash or this id. */
  ghost predicate FreshSession(t: Tables, s: Session) {
    s.hash !in t.tokens && forall h | h in t.tokens :: t.tokens[h].id != s.id
  }

  /** A login succeeds exactly for an existing user on a device of theirs or a new one, with a fresh session. It stores
      the session as a live token of that user and device, (re)activates the device, and changes nothing else. */
  lemma LoginIff(t: Tables, user: Id, device: Id, s: Session)
    ensures var r := Exec(t, Login(user, device, s));
            && (r.Some?
                <==> (&& user in t.users && (device in t.devices ==> t.devices[device].user == user)
                      && FreshSession(t, s)))
            && (r.Some? ==>
                  && r.value.tokens == t.tokens[s.hash := Token(s.id, user, device, s.expires, false)]
                  && r.value.devices == t.devices[device := Device(user, false)] && r.value.users == t.users
                  && r.value.root == t.root[s.hash := s.hash])
  {
  }

  /** A registration likewise, for a user id and a login nobody has. */
  lemma RegisterIff(t: Tables, user: Id, login: string, device: Id, s: Session)
    ensures var r := Exec(t, Register(user, login, device, s));
            && (r.Some? <==> user !in t.users && (forall u | u in t.users :: t.users[u] != login)
                             && (device in t.devices ==> t.devices[device].user == user) && FreshSession(t, s))
            && (r.Some? ==>
                  && r.value.users == t.users[user := login]
                  && r.value.tokens == t.tokens[s.hash := Token(s.id, user, device, s.expires, false)]
                  && r.value.devices == t.devices[device := Device(user, false)]
                  && r.value.root == t.root[s.hash := s.hash])
  {
  }

  /** In every reachable state a rotation succeeds exactly for a live, unexpired token on its own, unrevoked device,
      with a fresh session. */
  lemma RotateIff(t: Tables, hash: Bytes, device: Id, now: Time, s: Session)
    requires Inv(t)
    ensures Exec(t, Rotate(hash, device, now, s)).Some?
            <==> (&& hash in t.tokens && !t.tokens[hash].revoked && now < t.tokens[hash].expires
                  && t.tokens[hash].device == device && device in t.devices && !t.devices[device].revoked
                  && FreshSession(t, s))
  {
    if hash in t.tokens {
      assert TokenOk(t, hash);
      assert forall h | h in t.tokens :: WithoutToken(t, hash).tokens[h].id == t.tokens[h].id;
    }
    hide ChainsOk;
  }

  /** The token a login or registration hands out can be rotated at once, until it expires. */
  lemma FreshTokenRotates(t: Tables, user: Id, device: Id, s: Session, now: Time, s2: Session)
    requires Inv(t) && Exec(t, Login(user, device, s)).Some? && now < s.expires
    requires FreshSession(Step(t, Login(user, device, s)), s2)
    ensures Exec(Step(t, Login(user, device, s)), Rotate(s.hash, device, now, s2)).Some?
  {
    LoginIff(t, user, device, s);
    StepKeepsInv(t, Login(user, device, s));
    RotateIff(Step(t, Login(user, device, s)), s.hash, device, now, s2);
    hide Inv, Rotated, LoggedIn;
  }

  /** A logout revokes that token and no other, and succeeds exactly if it was live. */
  lemma LogoutIff(t: Tables, hash: Bytes)
    ensures var r := Exec(t, Logout(hash));
            && (r.Some? <==> hash in t.tokens && !t.tokens[hash].revoked)
            && (r.Some? ==> r.value == t.(tokens := t.tokens[hash := t.tokens[hash].(revoked := true)]))
  {
  }

  /** A revocation succeeds exactly for a device of that user. */
  lemma RevokeIff(t: Tables, user: Id, device: Id)
    ensures Exec(t, RevokeDevice(user, device)).Some? <==> device in t.devices && t.devices[device].user == user
    ensures var t' := Step(t, RevokeDevice(user, device));
            && t'.users == t.users && t'.root == t.root
            && forall d | d in t.devices && d != device :: d in t'.devices && t'.devices[d] == t.devices[d]
  {
  }

  /** A token once rotated or revoked stays revoked, and no later attempt to rotate it changes anything. */
  lemma SpentStaysSpent(t: Tables, calls: seq<Call>, hash: Bytes, device: Id, now: Time, s: Session)
    requires hash in t.tokens && t.tokens[hash].revoked
    ensures var t', c := Run(t, calls), Rotate(hash, device, now, s); Exec(t', c) == None && Step(t', c) == t'
  {
    RunLasts(t, calls, hash);
    hide Run;
  }

  /** A rotation spends the old token, and its successor continues the chain on the same device. */
  lemma RotationSpends(t: Tables, hash: Bytes, device: Id, now: Time, s: Session)
    requires Inv(t) && Exec(t, Rotate(hash, device, now, s)).Some?
    ensures var t' := Step(t, Rotate(hash, device, now, s));
            && t.tokens[hash].expires > now
            && t'.tokens[hash] == t.tokens[hash].(revoked := true)
            && s.hash !in t.tokens && t'.tokens[s.hash]
              == Token(s.id, t.tokens[hash].user, t.tokens[hash].device, s.expires, false)
            && SameChain(t', hash, s.hash)
            && forall h | Live(t', h) && SameChain(t', hash, h) :: h == s.hash
  {
    StepKeepsInv(t, Rotate(hash, device, now, s));
    var t' := Step(t, Rotate(hash, device, now, s));
    assert RootOk(t, hash);
    hide TokenOk;
    assert Live(t', s.hash);
    forall h | Live(t', h) && SameChain(t', hash, h) ensures h == s.hash { assert SameChain(t', h, s.hash); }
  }

  /** Rotating the same hash succeeds at most once in any run, whatever happens between. */
  lemma RotatesAtMostOnce(t: Tables, hash: Bytes, d1: Id, n1: Time, s1: Session, calls: seq<Call>, d2: Id, n2: Time,
                          s2: Session)
    requires Inv(t) && Exec(t, Rotate(hash, d1, n1, s1)).Some?
    ensures Exec(Run(Step(t, Rotate(hash, d1, n1, s1)), calls), Rotate(hash, d2, n2, s2)) == None
  {
    RotationSpends(t, hash, d1, n1, s1);
    var t1 := Step(t, Rotate(hash, d1, n1, s1));
    StepLasts(t, Rotate(hash, d1, n1, s1), hash);
    hide Step, Exec, Inv, Live;
    SpentStaysSpent(t1, calls, hash, d2, n2, s2);
  }

  /** Logging in on a revoked device reactivates it, and the new token is the only live one on it. */
  lemma LoginRevivesNothing(calls: seq<Call>, user: Id, device: Id, s: Session)
    requires var t := Run(EMPTY, calls);
             device in t.devices && t.devices[device].revoked && Exec(t, Login(user, device, s)).Some?
    ensures var t' := Step(Run(EMPTY, calls), Login(user, device, s));
            && t'.devices[device] == Device(user, false)
            && forall h | h in t'.tokens && t'.tokens[h].device == device && !t'.tokens[h].revoked :: h == s.hash
  {
    var t := Run(EMPTY, calls);
    assert Inv(EMPTY);
    RunKeepsInv(EMPTY, calls);
    hide Run;
    assert forall h | h in t.tokens :: TokenOk(t, h);
    hide ChainsOk;
  }

  /** Revoking a device leaves it without a live token. */
  lemma RevocationIsComplete(t: Tables, user: Id, device: Id, h: Bytes)
    requires Inv(t) && device in t.devices && t.devices[device].user == user && h in t.tokens
    ensures Exec(t, RevokeDevice(user, device)).Some?
    ensures var t' := Step(t, RevokeDevice(user, device));
            t'.devices[device].revoked && t'.tokens[h]
              == t.tokens[h].(revoked := t.tokens[h].revoked || t.tokens[h].device == device)
  {
    assert TokenOk(t, h);
  }

  // ---------------------------------------------------------------- the repositories

  class AuthRepositories {
    var users: map<Id, string>
    var devices: map<Id, Device>
    var tokens: map<Bytes, Token>
    ghost var root: map<Bytes, Bytes>

    constructor ()
      ensures State() == EMPTY
    {
      users, devices, tokens, root := map[], map[], map[], map[];
    }

    ghost function State(): Tables
      reads this
    {
      Tables(users, devices, tokens, root)
    }

    method InsertUser(user: Id, login: string) returns (ok: bool)
      modifies `users
      ensures ok <==> CanInsertUser(old(State()), user, login)
      ensures users == if ok then old(users)[user := login] else old(users)
    {
      ok := user !in users && forall u | u in users :: users[u] != login;
      if ok { users := users[user := login]; }
    }

    /** INSERT ... ON CONFLICT DO UPDATE ... WHERE the owner is the same. */
    method UpsertDevice(user: Id, device: Id) returns (ok: bool)
      modifies `devices
      ensures ok <==> CanUseDevice(old(State()), user, device)
      ensures State() == if ok then WithDevice(old(State()), user, device) else old(State())
    {
      if device in devices && devices[device].user != user { return false; }
      if device !in devices && user !in users { return false; }
      devices := devices[device := Device(user, false)];
      ok := true;
    }

    /** INSERT INTO refresh_tokens with its keys. */
    method InsertSession(user: Id, device: Id, s: Session, ghost chain: Bytes) returns (ok: bool)
      modifies `tokens, `root
      ensures ok <==> CanInsertToken(old(State()), user, device, s)
      ensures State() == if ok then WithToken(old(State()), user, device, s, chain) else old(State())
    {
      ok := user in users && device in devices && s.hash !in tokens && forall h | h in tokens :: tokens[h].id != s.id;
      if ok {
        tokens := tokens[s.hash := Token(s.id, user, device, s.expires, false)];
        root := root[s.hash := chain];
      }
    }

    method RegisterWithSession(user: Id, login: string, device: Id, s: Session) returns (ok: bool)
      modifies this
      ensures ok <==> Exec(old(State()), Register(user, login, device, s)).Some?
      ensures State() == Step(old(State()), Register(user, login, device, s))
    {
      var users0 := users;
      ok := InsertUser(user, login);
      if !ok { return; }
      ok := LoginWithDeviceAndSession(user, device, s);
      if !ok { users := users0; }
    }

    method LoginWithDeviceAndSession(user: Id, device: Id, s: Session) returns (ok: bool)
      modifies `devices, `tokens, `root
      ensures ok <==> Exec(old(State()), Login(user, device, s)).Some?
      ensures State() == Step(old(State()), Login(user, device, s))
    {
      var devices0 := devices;
      ok := UpsertDevice(user, device);
      if !ok { return; }
      ok := InsertSession(user, device, s, s.hash);
      if !ok { devices := devices0; }
    }

    method RevokeByHash(hash: Bytes) returns (affected: nat)
      modifies `tokens
      ensures affected == if Live(old(State()), hash) then 1 else 0
      ensures State() == if affected == 1 then WithoutToken(old(State()), hash) else old(State())
      ensures State() == Step(old(State()), Logout(hash))
    {
      if hash !in tokens || tokens[hash].revoked { return 0; }
      tokens := tokens[hash := tokens[hash].(revoked := true)];
      affected := 1;
    }

    method RotateRefresh(hash: Bytes, device: Id, now: Time, s: Session) returns (owner: Option<(Id, Id)>)
      modifies `tokens, `root
      ensures owner.Some? <==> Exec(old(State()), Rotate(hash, device, now, s)).Some?
      ensures State() == Step(old(State()), Rotate(hash, device, now, s))
      ensures owner.Some? ==> s.hash in tokens && owner.value == (tokens[s.hash].user, tokens[s.hash].device)
    {
      var tokens0 := tokens;
      if !(hash in tokens && tokens[hash].device == device && !tokens[hash].revoked && tokens[hash].expires > now
           && device in devices && devices[device].user == tokens[hash].user
             && !devices[device].revoked) { return None; }
      var user := tokens[hash].user;
      ghost var chain := if hash in root then root[hash] else hash;
      var revoked := RevokeByHash(hash);
      var ok := revoked == 1;
      if ok { ok := InsertSession(user, device, s, chain); }
      if !ok {
        tokens := tokens0;
        return None;
      }
      owner := Some((user, device));
    }

    method RevokeDeviceForUser(user: Id, device: Id) returns (found: bool)
      modifies `devices, `tokens
      ensures found <==> Exec(old(State()), RevokeDevice(user, device)).Some?
      ensures State() == Step(old(State()), RevokeDevice(user, device))
    {
      if device in devices && devices[device].user == user && !devices[device].revoked {
        devices := devices[device := devices[device].(revoked := true)];
      } else if device !in devices || devices[device].user != user {
        return false;
      }
      tokens := map h | h in tokens :: if tokens[h].user == user && tokens[h].device == device && !tokens[h].revoked
                                       then tokens[h].(revoked := true) else tokens[h];
      found := true;
    }
  }
}
