/**
 * The client session of the business directory: the signed-in identity, the
 * boot flag, the token persisted in local storage under the key `token`, the
 * `Authorization` default header of the shared HTTP client, and the route
 * last handed to the router.
 */
module Auth {
  import opened Wrappers
  import opened Strings

  /** The identity claims carried by a token. */
  datatype User = User(id: string, name: string, email: string, role: string)

  /** The body of a successful login or register response. */
  datatype AuthResponse = AuthResponse(token: string, user: User)

  /**
   * What the remote login or register call produced: the response body, or
   * the `message` field of the error response when there was one.
   */
  type RemoteOutcome = Result<AuthResponse, Option<string>>

  /** Everything a transition of the provider can change. */
  datatype Session = Session(
    user: Option<User>,
    loading: bool,
    stored: Option<string>,
    authHeader: Option<string>,
    lastNav: Option<string>)

  const BearerPrefix := "Bearer "
  const DashboardRoute := "/dashboard"
  const HomeRoute := "/"
  const GenericError := "An error occurred"
  const OutsideProviderError := "useAuth must be used within an AuthProvider"

  /** The header value of the Bearer scheme (section 2.1 of RFC 6750) for a token. */
  function BearerHeader(token: string): (h: string)
    ensures StartsWith(h, BearerPrefix)
    ensures h[|BearerPrefix|..] == token
  {
    BearerPrefix + token
  }

  /** `if (token)`: a missing entry and the empty string both count as no token. */
  predicate HasToken(stored: Option<string>)
  {
    stored.Some? && stored.value != ""
  }

  /**
   * The session invariant: signed in exactly when the header is set, and a
   * set header is the Bearer header of the stored token.
   */
  predicate Coupled(s: Session)
  {
    && (s.user.Some? <==> s.authHeader.Some?)
    && (s.authHeader.Some? ==> s.stored.Some? && s.authHeader.value == BearerHeader(s.stored.value))
  }

  /** The provider as it mounts: no user, booting, no header, whatever storage holds. */
  function Mounted(persisted: Option<string>): (s: Session)
    ensures s.loading && s.user.None? && s.authHeader.None? && s.lastNav.None?
    ensures s.stored == persisted
    ensures Coupled(s)
  {
    Session(None, true, persisted, None, None)
  }

  /**
   * The mount effect: restore the session from a stored token that decodes,
   * drop a stored token that does not, and end the boot phase in every case.
   */
  function Bootstrapped(s: Session, decode: string -> Option<User>): (r: Session)
    requires s.loading && s.user.None? && s.authHeader.None?
    ensures !r.loading
    ensures Coupled(r)
    ensures r.user.Some? <==> HasToken(s.stored) && decode(s.stored.value).Some?
    ensures r.user.Some? ==> r.user == decode(s.stored.value) && r.stored == s.stored
    ensures r.stored.None? <==> s.stored.None? || (HasToken(s.stored) && decode(s.stored.value).None?)
    ensures r.stored.Some? ==> r.stored == s.stored
    ensures r.lastNav == s.lastNav
  {
    if !HasToken(s.stored) then
      s.(loading := false)
    else
      match decode(s.stored.value)
      case Some(u) =>
        s.(user := Some(u), authHeader := Some(BearerHeader(s.stored.value)), loading := false)
      case None =>
        s.(stored := None, loading := false)
  }

  /**
   * Login and register after the remote call: a success persists the token,
   * sets the header and the user and goes to the dashboard; a failure changes
   * nothing.
   */
  function AuthResponded(s: Session, outcome: RemoteOutcome): (r: Session)
    ensures outcome.Failure? ==> r == s
    ensures outcome.Success? ==>
      && r.user == Some(outcome.value.user)
      && r.stored == Some(outcome.value.token)
      && r.authHeader == Some(BearerHeader(outcome.value.token))
      && r.lastNav == Some(DashboardRoute)
    ensures r.loading == s.loading
    ensures Coupled(s) ==> Coupled(r)
  {
    match outcome
    case Success(AuthResponse(token, user)) =>
      s.(stored := Some(token), authHeader := Some(BearerHeader(token)), user := Some(user),
         lastNav := Some(DashboardRoute))
    case Failure(_) =>
      s
  }

  /**
   * The message of the error a failed login or register raises:
   * `error.response?.data?.message || 'An error occurred'`.
   */
  function ErrorMessage(serverMessage: Option<string>): (m: string)
    ensures m != ""
    ensures serverMessage.Some? && serverMessage.value != "" ==> m == serverMessage.value
    ensures serverMessage.None? || serverMessage.value == "" ==> m == GenericError
  {
    match serverMessage
    case Some(msg) => if msg != "" then msg else GenericError
    case None => GenericError
  }

  /** Logout: clear storage, header and user and go home, whatever the state was. */
  function LoggedOut(s: Session): (r: Session)
    ensures r.user.None? && r.stored.None? && r.authHeader.None?
    ensures r.lastNav == Some(HomeRoute)
    ensures r.loading == s.loading
    ensures Coupled(r)
  {
    s.(stored := None, authHeader := None, user := None, lastNav := Some(HomeRoute))
  }

  /** Logging out twice leaves the same state as logging out once. */
  lemma LogoutIdempotent(s: Session)
    ensures LoggedOut(LoggedOut(s)) == LoggedOut(s)
  {
  }

  /** Logout does not depend on the session it starts from, except for the boot flag it keeps. */
  lemma LogoutUnconditional(s: Session, t: Session)
    requires s.loading == t.loading
    ensures LoggedOut(s) == LoggedOut(t)
  {
  }

  /** A reload after a successful login restores the user the server sent, when its token decodes to it. */
  lemma ReloadAfterLogin(s: Session, response: AuthResponse, decode: string -> Option<User>)
    requires response.token != "" && decode(response.token) == Some(response.user)
    ensures
      var after := AuthResponded(s, Success(response));
      var reloaded := Bootstrapped(Mounted(after.stored), decode);
      reloaded.user == after.user && reloaded.authHeader == after.authHeader && reloaded.stored == after.stored
  {
  }

  /** A second boot from what the first boot left in storage ends in the same session. */
  lemma BootstrapStable(persisted: Option<string>, decode: string -> Option<User>)
    ensures
      var first := Bootstrapped(Mounted(persisted), decode);
      Bootstrapped(Mounted(first.stored), decode) == first
  {
  }

  /** `useAuth`: the provider's value, or an error when there is no provider above the caller. */
  function UseAuth(context: Option<AuthProvider>): (r: Result<AuthProvider, string>)
    ensures r.Success? <==> context.Some?
    ensures context.Some? ==> r.value == context.value
    ensures context.None? ==> r.error == OutsideProviderError
  {
    match context
    case Some(provider) => Success(provider)
    case None => Failure(OutsideProviderError)
  }

  /** `AuthProvider`: the session state and the four transitions that change it. */
  class AuthProvider {
    var user: Option<User>
    var loading: bool
    var stored: Option<string>
    var authHeader: Option<string>
    var lastNav: Option<string>

    function State(): Session
      reads this
    {
      Session(user, loading, stored, authHeader, lastNav)
    }

    ghost predicate Valid()
      reads this
    {
      Coupled(State())
    }

    /** Mounting the provider over what local storage holds. */
    constructor (persisted: Option<string>)
      ensures Valid()
      ensures State() == Mounted(persisted)
    {
      user := None;
      loading := true;
      stored := persisted;
      authHeader := None;
      lastNav := None;
    }

    /** The mount effect; it runs once, while the provider still boots and nobody is signed in. */
    method Bootstrap(decode: string -> Option<User>)
      requires loading && user.None? && authHeader.None?
      modifies this`user, this`loading, this`stored, this`authHeader
      ensures Valid()
      ensures State() == Bootstrapped(old(State()), decode)
    {
      var token := stored;
      if token.Some? && token.value != "" {
        var decoded := decode(token.value);
        if decoded.Some? {
          user := decoded;
          authHeader := Some(BearerHeader(token.value));
        } else {
          stored := None;
        }
      }
      loading := false;
    }

    /** `login`, given what the remote login call produced; returns the message of the error it raises. */
    method Login(outcome: RemoteOutcome) returns (error: Option<string>)
      requires Valid()
      modifies this`user, this`stored, this`authHeader, this`lastNav
      ensures Valid()
      ensures State() == AuthResponded(old(State()), outcome)
      ensures error.None? <==> outcome.Success?
      ensures outcome.Failure? ==> error == Some(ErrorMessage(outcome.error))
    {
      if outcome.Success? {
        var token, u := outcome.value.token, outcome.value.user;
        stored := Some(token);
        authHeader := Some(BearerHeader(token));
        user := Some(u);
        lastNav := Some(DashboardRoute);
        error := None;
      } else {
        error := Some(ErrorMessage(outcome.error));
      }
    }

    /** `register`, given what the remote register call produced; the same contract as `login`. */
    method Register(outcome: RemoteOutcome) returns (error: Option<string>)
      requires Valid()
      modifies this`user, this`stored, this`authHeader, this`lastNav
      ensures Valid()
      ensures State() == AuthResponded(old(State()), outcome)
      ensures error.None? <==> outcome.Success?
      ensures outcome.Failure? ==> error == Some(ErrorMessage(outcome.error))
    {
      if outcome.Success? {
        var token, u := outcome.value.token, outcome.value.user;
        stored := Some(token);
        authHeader := Some(BearerHeader(token));
        user := Some(u);
        lastNav := Some(DashboardRoute);
        error := None;
      } else {
        error := Some(ErrorMessage(outcome.error));
      }
    }

    /** `logout`: an unconditional local reset. */
    method Logout()
      modifies this`user, this`stored, this`authHeader, this`lastNav
      ensures Valid()
      ensures State() == LoggedOut(old(State()))
    {
      stored := None;
      authHeader := None;
      user := None;
      lastNav := Some(HomeRoute);
    }
  }

  /** A session driven through its transitions, using only the methods' contracts. */
  method SessionWalkthrough(decode: string -> Option<User>, t1: string, u2: User)
    requires t1 != "" && decode(t1) == None
  {
    var p := new AuthProvider(Some(t1));
    p.Bootstrap(decode);
    assert p.user == None && p.stored == None && !p.loading;

    var err := p.Login(Failure(Some("Invalid credentials")));
    assert err == Some("Invalid credentials");
    assert p.user == None && p.stored == None && p.authHeader == None;

    err := p.Login(Success(AuthResponse("T1", u2)));
    assert err == None && p.user == Some(u2) && p.stored == Some("T1");
    assert BearerHeader("T1") == "Bearer T1";
    assert p.authHeader == Some("Bearer T1") && p.lastNav == Some("/dashboard");

    p.Logout();
    var once := p.State();
    p.Logout();
    assert p.State() == once && p.user == None && p.stored == None && !p.loading;
  }
}
