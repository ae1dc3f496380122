/**
 * The login and logout endpoints (api/SlowPoke.API/Endpoints/AuthEndpoints.cs).
 *
 * The decision `LoginAsync` takes is the pure function `LoginDecision`; the
 * per-client session that `SignInAsync` and `SignOutAsync` change is the
 * field of a `Client` object, whose `Login` and `Logout` methods are the two
 * handlers.
 */
module AuthEndpoints {

  import opened Wrappers
  import opened Time
  import opened AuthModels
  import opened HttpResults

  /** A point in time, in ticks (100 ns) of `DateTimeOffset`, UTC. */
  type Instant = int

  /** `TimeSpan.FromDays(7)`: how long an issued session lasts. */
  const SessionLifetime: int := 7 * TicksPerDay

  /** `CookieAuthenticationDefaults.AuthenticationScheme`. */
  const CookieScheme: string := "Cookies"

  /** The two configuration keys the login reads. */
  datatype Configuration = Configuration(
    /** `Auth:Password`; `None` when the key is absent. */
    password: Option<string>,
    /** `Auth:DefaultPassword`; `None` when the key is absent. */
    defaultPassword: Option<string>)

  datatype ClaimType = NameClaim | RoleClaim

  datatype Claim = Claim(claimType: ClaimType, value: string)

  /**
   * The authentication ticket that sign-in stores in the client's cookie: the
   * principal's claims, the identity's authentication type and the
   * authentication properties. Only the server issues one (`IssueSession`);
   * `Client.Valid` keeps a client from holding any other. Signing and
   * encrypting it is the cookie middleware's work and is not modelled.
   */
  datatype Session = Session(
    claims: seq<Claim>,
    authenticationType: string,
    isPersistent: bool,
    expiresUtc: Instant,
    allowRefresh: bool)

  /** What the client holds: no session, or the session of its last successful login. */
  datatype SessionState = Anonymous | Authenticated(session: Session)

  /** The three ways `LoginAsync` ends. */
  datatype LoginOutcome = ConfigError | InvalidPassword | SignedIn(session: Session)

  const ConfigErrorMessage: string := "Server configuration error: Password not set"
  const InvalidPasswordMessage: string := "Invalid password"

  /**
   * `configuration["Auth:Password"] ?? configuration["Auth:DefaultPassword"]`:
   * the fallback key is read only when the primary key is absent (null), not
   * when it holds the empty string.
   */
  function EffectivePassword(config: Configuration): (r: Option<string>) {
    match config.password
    case Some(p) => Some(p)
    case None => config.defaultPassword
  }

  /**
   * Independent statement of "a password is configured": the primary key
   * holds a non-empty string, or it is absent and the default key does.
   */
  predicate PasswordConfigured(config: Configuration) {
    || (config.password.Some? && config.password.value != "")
    || (config.password.None? && config.defaultPassword.Some? && config.defaultPassword.value != "")
  }

  /**
   * Independent statement of "this password is accepted": it is non-empty and
   * is the primary key's value, or the primary key is absent and it is the
   * default key's value.
   */
  predicate Accepts(config: Configuration, submitted: string) {
    && submitted != ""
    && (config.password == Some(submitted) || (config.password.None? && config.defaultPassword == Some(submitted)))
  }

  /**
   * The session a successful login at `now` issues: exactly the two claims
   * Name = "admin" and Role = "Administrator", persistent, expiring seven days
   * after `now`, with refresh allowed.
   */
  function IssueSession(now: Instant): (s: Session)
    ensures |s.claims| == 2
    ensures s.claims[0] == Claim(NameClaim, "admin") && s.claims[1] == Claim(RoleClaim, "Administrator")
    ensures s.isPersistent && s.allowRefresh
    ensures s.expiresUtc - now == 7 * 864_000_000_000
    ensures s.authenticationType == CookieScheme
  {
    Session([Claim(NameClaim, "admin"), Claim(RoleClaim, "Administrator")], CookieScheme, true, now + SessionLifetime, true)
  }

  /** `s` is a session the server issued, at some instant. */
  ghost predicate Issued(s: Session) {
    exists t: Instant :: s == IssueSession(t)
  }

  /**
   * What holding an issued session means: the fixed administrator identity,
   * persistent, refreshable, and a seven-day lifetime measured from its issue.
   */
  lemma IssuedSessionIsAdministrator(s: Session)
    requires Issued(s)
    ensures s.claims == [Claim(NameClaim, "admin"), Claim(RoleClaim, "Administrator")]
    ensures s.isPersistent && s.allowRefresh && s.authenticationType == CookieScheme
    ensures s == IssueSession(s.expiresUtc - SessionLifetime)
  {
  }

  /**
   * The decision of `LoginAsync`: fail closed with a configuration error when
   * the effective password is null or empty, whatever was submitted; else
   * refuse any submitted password that is not exactly (case-sensitively) the
   * configured one; else sign in with a freshly issued session.
   */
  function LoginDecision(config: Configuration, submitted: string, now: Instant): (r: LoginOutcome)
    ensures r.ConfigError? <==> !PasswordConfigured(config)
    ensures r.InvalidPassword? <==> PasswordConfigured(config) && !Accepts(config, submitted)
    ensures r.SignedIn? <==> Accepts(config, submitted)
    ensures r.SignedIn? ==> r.session == IssueSession(now)
  {
    var configPassword := EffectivePassword(config);
    if configPassword.None? || configPassword.value == "" then ConfigError
    else if submitted != configPassword.value then InvalidPassword
    else SignedIn(IssueSession(now))
  }

  /** The HTTP result `LoginAsync` returns for each outcome. */
  function LoginResult(outcome: LoginOutcome): (r: HttpResult)
    ensures StatusCode(r) == 500 <==> outcome.ConfigError?
    ensures StatusCode(r) == 401 <==> outcome.InvalidPassword?
    ensures StatusCode(r) == 200 <==> outcome.SignedIn?
    ensures outcome.ConfigError? ==> r == Problem(ConfigErrorMessage)
    ensures outcome.InvalidPassword? ==> r == JsonError(401, InvalidPasswordMessage)
    ensures outcome.SignedIn? ==> r == LoginOk(LoginResponse(true))
  {
    match outcome
    case ConfigError => Problem(ConfigErrorMessage)
    case InvalidPassword => JsonError(401, InvalidPasswordMessage)
    case SignedIn(_) => LoginOk(LoginResponse(true))
  }

  /**
   * Once `Auth:Password` is present, even as the empty string, the value of
   * `Auth:DefaultPassword` never affects the login.
   */
  lemma DefaultKeyIgnoredWhenPrimaryPresent(password: string, default1: Option<string>, default2: Option<string>, submitted: string, now: Instant)
    ensures LoginDecision(Configuration(Some(password), default1), submitted, now)
         == LoginDecision(Configuration(Some(password), default2), submitted, now)
  {
  }

  /** With `Auth:Password` absent, the login behaves as if the default value were the primary one. */
  lemma DefaultKeyUsedWhenPrimaryAbsent(defaultPassword: Option<string>, submitted: string, now: Instant)
    ensures LoginDecision(Configuration(None, defaultPassword), submitted, now)
         == LoginDecision(Configuration(defaultPassword, None), submitted, now)
  {
  }

  /**
   * An empty primary password does not fall back: login is a configuration
   * error even when the default key is set and the default password is submitted.
   */
  lemma EmptyPrimaryDoesNotFallBack(defaultPassword: string, now: Instant)
    ensures LoginDecision(Configuration(Some(""), Some(defaultPassword)), defaultPassword, now) == ConfigError
  {
  }

  /**
   * Without a configured password, every submitted password gets the same
   * 500 problem: never a 401 and never a sign-in.
   */
  lemma UnconfiguredFailsClosed(config: Configuration, submitted: string, now: Instant)
    requires !PasswordConfigured(config)
    ensures LoginResult(LoginDecision(config, submitted, now)) == Problem(ConfigErrorMessage)
    ensures StatusCode(LoginResult(LoginDecision(config, submitted, now))) == 500
  {
  }

  /**
   * With a password configured, every submitted password that is not exactly
   * it (a difference in letter case included) gets 401 `{error: "Invalid password"}`.
   */
  lemma WrongPasswordRefused(config: Configuration, submitted: string, now: Instant)
    requires PasswordConfigured(config) && !Accepts(config, submitted)
    ensures LoginResult(LoginDecision(config, submitted, now)) == JsonError(401, "Invalid password")
  {
  }

  /** Per-client state: the session the client's cookie holds, if any. */
  class Client {

    var state: SessionState

    /** The client holds no session, or one the server issued. */
    ghost predicate Valid()
      reads this
    {
      state.Authenticated? ==> Issued(state.session)
    }

    /** A client that has not logged in. */
    constructor ()
      ensures Valid() && state == Anonymous
    {
      state := Anonymous;
    }

    /** `SignInAsync`: the client now holds `session`, replacing any earlier one. */
    method SignIn(session: Session)
      requires Issued(session)
      modifies this
      ensures Valid() && state == Authenticated(session)
    {
      state := Authenticated(session);
    }

    /** `SignOutAsync`: the client's session is cleared. */
    method SignOut()
      modifies this
      ensures Valid() && state == Anonymous
    {
      state := Anonymous;
    }

    /**
     * `LoginAsync`. The result is the one `LoginDecision` prescribes; the
     * session changes only on a successful login, because signing in comes
     * after both early returns.
     */
    method Login(request: LoginRequest, config: Configuration, now: Instant) returns (r: HttpResult)
      requires Valid()
      modifies this
      ensures Valid()
      ensures r == LoginResult(LoginDecision(config, request.password, now))
      ensures LoginDecision(config, request.password, now).SignedIn? ==> state == Authenticated(IssueSession(now))
      ensures !LoginDecision(config, request.password, now).SignedIn? ==> state == old(state)
    {
      var configPassword := EffectivePassword(config);
      if configPassword.None? || configPassword.value == "" {
        return Problem(ConfigErrorMessage);
      }
      if request.password != configPassword.value {
        return JsonError(401, InvalidPasswordMessage);
      }
      SignIn(IssueSession(now));
      return LoginOk(LoginResponse(true));
    }

    /** `LogoutAsync`: whatever the state, the session is cleared and the result is success. */
    method Logout() returns (r: HttpResult)
      requires Valid()
      modifies this
      ensures Valid() && state == Anonymous
      ensures r == LogoutOk(LogoutResponse(true))
    {
      SignOut();
      return LogoutOk(LogoutResponse(true));
    }
  }
}
