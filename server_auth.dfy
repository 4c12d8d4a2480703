/**
 * The server's authentication decisions: token expiry, the ordered outcome
 * checks of a password login, and the user a verified Google identity maps to.
 *
 * A token is its unsigned payload; signing is not modelled. The clock is
 * passed in as millisecond readings.
 */
module Auth {
  import opened Wrappers
  import opened Lists
  import opened Documents

  /** A stored user document. `role` is free text; the schema only gives it a default. */
  datatype UserRecord = UserRecord(
    id: Id,
    login: string,
    password: string,
    firstName: string,
    lastName: string,
    role: string)

  const DefaultRole := "developer"

  /** Access tokens live 15 minutes, refresh tokens 24 hours. */
  const AccessTokenSeconds: int := 60 * 15
  const RefreshTokenSeconds: int := 60 * 60 * 24

  datatype Claims = Claims(id: Id, role: string, firstName: string, lastName: string)

  /** A token payload: the claims plus the expiry, in whole seconds since the epoch. */
  datatype Token = Token(claims: Claims, exp: int)

  /**
   * `generateToken`: the expiry is the current time rounded down to the second,
   * plus the lifetime.
   */
  function GenerateToken(claims: Claims, expirationInSeconds: int, nowMs: int): (t: Token)
    ensures t.claims == claims
    ensures 1000 * (t.exp - expirationInSeconds) <= nowMs < 1000 * (t.exp - expirationInSeconds + 1)
  {
    Token(claims, nowMs / 1000 + expirationInSeconds)
  }

  function ClaimsOf(u: UserRecord): Claims {
    Claims(u.id, u.role, u.firstName, u.lastName)
  }

  /**
   * The outcome of `/login` and `/google-login`. `InvalidGoogleToken` is the
   * 400 for a verified Google ticket that has no payload.
   */
  datatype LoginReply =
    | InvalidCredentials
    | InvalidGoogleToken
    | IncompleteProfile
    | Session(token: Token, refreshToken: Token, user: UserRecord)

  function StatusCode(r: LoginReply): int {
    match r
    case InvalidCredentials => 401
    case InvalidGoogleToken => 400
    case IncompleteProfile => 400
    case Session(_, _, _) => 200
  }

  /** Both names must be truthy: neither absent nor empty. */
  predicate ProfileComplete(u: UserRecord) {
    u.firstName != "" && u.lastName != ""
  }

  /**
   * The common tail of both login handlers: refuse an incomplete profile,
   * otherwise issue an access and a refresh token for the user. The source
   * reads the clock once per token, hence two readings.
   */
  function OpenSession(u: UserRecord, accessMs: int, refreshMs: int): (r: LoginReply)
    ensures r.IncompleteProfile? || r.Session?
    ensures r.Session? <==> u.firstName != "" && u.lastName != ""
    ensures r.Session? ==> r.user == u
    ensures r.Session? ==> r.token.claims == r.refreshToken.claims == Claims(u.id, u.role, u.firstName, u.lastName)
    ensures r.Session? ==> r.token.exp == GenerateToken(ClaimsOf(u), AccessTokenSeconds, accessMs).exp
    ensures r.Session? ==> r.refreshToken.exp == GenerateToken(ClaimsOf(u), RefreshTokenSeconds, refreshMs).exp
  {
    if !ProfileComplete(u) then IncompleteProfile
    else
      Session(
        GenerateToken(ClaimsOf(u), AccessTokenSeconds, accessMs),
        GenerateToken(ClaimsOf(u), RefreshTokenSeconds, refreshMs),
        u)
  }

  /** Issued from one clock reading, the refresh token outlives the access token by 85500 s. */
  lemma RefreshOutlivesAccess(u: UserRecord, nowMs: int)
    requires ProfileComplete(u)
    ensures var r := OpenSession(u, nowMs, nowMs);
            r.Session? && r.refreshToken.exp - r.token.exp == 85500
  {
  }

  /**
   * With two readings less than a second apart, the gap is 85500 s or, when
   * the readings straddle a second boundary, 85501 s.
   */
  lemma RefreshGapWithTwoReadings(u: UserRecord, accessMs: int, refreshMs: int)
    requires ProfileComplete(u)
    requires accessMs <= refreshMs < accessMs + 1000
    ensures var r := OpenSession(u, accessMs, refreshMs);
            r.Session? && r.refreshToken.exp - r.token.exp in {85500, 85501}
  {
  }

  /** `{ login, password }` as the filter of `findOne`. */
  function CredentialsMatch(login: string, password: string): UserRecord -> bool {
    (u: UserRecord) => u.login == login && u.password == password
  }

  /**
   * `/login`: no user with both login and password gives 401; the first such
   * user with an incomplete profile gives 400; otherwise 200 with two tokens.
   */
  function Login(users: seq<UserRecord>, login: string, password: string, accessMs: int, refreshMs: int): (r: LoginReply)
    ensures !r.InvalidGoogleToken?
    ensures r.InvalidCredentials? <==> forall u :: u in users ==> !(u.login == login && u.password == password)
    ensures !r.InvalidCredentials? ==>
              exists i :: 0 <= i < |users| && users[i].login == login && users[i].password == password &&
                          (forall j :: 0 <= j < i ==> !(users[j].login == login && users[j].password == password)) &&
                          r == OpenSession(users[i], accessMs, refreshMs)
    ensures StatusCode(r) == 401 <==> r.InvalidCredentials?
  {
    var found := Find(users, CredentialsMatch(login, password));
    assert found.None? <==> forall u :: u in users ==> !CredentialsMatch(login, password)(u);
    match found
    case None => InvalidCredentials
    case Some(u) => OpenSession(u, accessMs, refreshMs)
  }

  /** The verified identity, when Google's check yields a payload. */
  datatype GooglePayload = GooglePayload(email: Option<string>, givenName: Option<string>, familyName: Option<string>)

  /** `{ login: payload.email }`: an absent email matches no stored login. */
  function LoginIs(email: Option<string>): UserRecord -> bool {
    (u: UserRecord) => Some(u.login) == email
  }

  /** The user `/google-login` creates when no stored login equals the email. */
  function NewGoogleUser(id: Id, p: GooglePayload): UserRecord {
    UserRecord(id, p.email.GetOr(""), "", p.givenName.GetOr(""), p.familyName.GetOr(""), DefaultRole)
  }

  /**
   * The user `/google-login` proceeds with, and whether it had to be created:
   * the first stored user whose login is the email, or a new one with an
   * empty password, the default role and the payload's names.
   */
  function ResolveGoogleUser(users: seq<UserRecord>, nextId: Id, p: GooglePayload): (r: (UserRecord, bool))
    ensures r.1 <==> forall u :: u in users ==> Some(u.login) != p.email
    ensures r.1 ==> r.0 == UserRecord(nextId, p.email.GetOr(""), "", p.givenName.GetOr(""), p.familyName.GetOr(""), "developer")
    ensures !r.1 ==> exists i :: 0 <= i < |users| && users[i] == r.0 && Some(r.0.login) == p.email &&
                                 forall j :: 0 <= j < i ==> Some(users[j].login) != p.email
  {
    var found := Find(users, LoginIs(p.email));
    assert found.None? <==> forall u :: u in users ==> !LoginIs(p.email)(u);
    match found
    case None => (NewGoogleUser(nextId, p), true)
    case Some(u) => (u, false)
  }

  /**
   * A user that `/google-login` creates is stored with an empty password, so
   * afterwards `/login` with that email and an empty password opens a session.
   */
  lemma GoogleUserLogsInWithEmptyPassword(users: seq<UserRecord>, nextId: Id, p: GooglePayload, accessMs: int, refreshMs: int)
    requires p.email.Some?
    requires p.givenName.Some? && p.givenName.value != ""
    requires p.familyName.Some? && p.familyName.value != ""
    requires forall u :: u in users ==> Some(u.login) != p.email
    ensures var u := ResolveGoogleUser(users, nextId, p).0;
            var r := Login(users + [u], p.email.value, "", accessMs, refreshMs);
            r.Session? && r.user == u
  {
    var u := ResolveGoogleUser(users, nextId, p).0;
    var all := users + [u];
    assert all[|users|] == u;
    forall j | 0 <= j < |users| ensures all[j].login != p.email.value {
      assert all[j] == users[j];
    }
    var r := Login(all, p.email.value, "", accessMs, refreshMs);
    assert !r.InvalidCredentials?;
    var i :| 0 <= i < |all| && all[i].login == p.email.value && all[i].password == "" &&
             (forall j :: 0 <= j < i ==> !(all[j].login == p.email.value && all[j].password == "")) &&
             r == OpenSession(all[i], accessMs, refreshMs);
    assert i == |users|;
  }

  /** A Google identity without a given name is refused with 400, though a new user is created for it. */
  lemma NamelessGoogleUserRefused(users: seq<UserRecord>, nextId: Id, p: GooglePayload)
    requires p.givenName.None?
    requires forall u :: u in users ==> Some(u.login) != p.email
    ensures ResolveGoogleUser(users, nextId, p).1
    ensures forall accessMs, refreshMs ::
              OpenSession(ResolveGoogleUser(users, nextId, p).0, accessMs, refreshMs) == IncompleteProfile
  {
  }
}
