/**
 * The client-side session lifecycle of the authentication context:
 * the user record, the authenticated flag and the one persisted token
 * slot (browser storage key "jwtToken"), changed by login, register,
 * guest login, logout and the one-shot startup rehydration.
 *
 * Every HTTP round-trip is an input to the operation that makes it.
 * The transitions are specified once, by `Step` on a `Session` record;
 * the class `AuthProvider` implements them on fields and is proved
 * against `Step`, and the lemmas below state what the transitions promise.
 */
module AuthContext {
  import opened Wrappers

  /** The two roles a user record may carry. */
  datatype Role = Guest | Operator

  /** The user record the server sends. */
  datatype User = User(id: string, email: string, role: Role, fullName: Option<string>)

  /** The answer of POST /api/auth/login, /register or /guest-login. */
  datatype AuthReply = Issued(token: string, user: User) | Failed

  /** The answer of GET /api/auth/me for the stored bearer token. */
  datatype MeReply = Found(user: User) | Rejected

  /** How the promise an auth operation returns settles. */
  datatype Settled = Fulfilled | Thrown

  const GuestPortalPath := "/guest-portal"
  const OperatorDashboardPath := "/operator-dashboard"
  const BookPath := "/book"
  const HomePath := "/"

  /** Everything the lifecycle changes: the persisted token, the user, the flag, and the last navigation target. */
  datatype Session = Session(token: Option<string>, user: Option<User>, isAuthenticated: bool, lastNav: Option<string>)

  /** One state change of the context, with the server's answer where it makes a request. */
  datatype Event =
    | Login(reply: AuthReply)
    | Register(reply: AuthReply)
    | GuestLogin(reply: AuthReply)
    | Logout
    | Rehydrate(me: MeReply)

  /** The state when the provider mounts: whatever token a previous visit left in storage, no user. */
  function Initial(stored: Option<string>): Session
  {
    Session(stored, None, false, None)
  }

  /** The flag is set exactly when a user is held. */
  predicate ValidSession(s: Session)
  {
    s.isAuthenticated <==> s.user.Some?
  }

  /** The truthiness test `if (token)` on the value read from storage: absent and "" are both false. */
  predicate HasStoredToken(token: Option<string>)
  {
    token.Some? && token.value != ""
  }

  /** Where a successful login sends the user. */
  function LoginTarget(role: Role): string
  {
    if role == Operator then OperatorDashboardPath else GuestPortalPath
  }

  /** A login, registration or guest login. */
  predicate IsSignIn(e: Event)
  {
    e.Login? || e.Register? || e.GuestLogin?
  }

  /** A sign-in whose request succeeded. */
  predicate SignInSucceeds(e: Event)
  {
    IsSignIn(e) && e.reply.Issued?
  }

  /** Where a successful sign-in navigates. */
  function SignInTarget(e: Event): string
    requires SignInSucceeds(e)
  {
    match e
    case Login(reply) => LoginTarget(reply.user.role)
    case Register(_) => BookPath
    case GuestLogin(_) => GuestPortalPath
  }

  /** The token an event writes to storage, if any. */
  function IssuedToken(e: Event): Option<string>
  {
    if SignInSucceeds(e) then Some(e.reply.token) else None
  }

  /** The user record an event takes from the server, if any. */
  function ServerUser(e: Event): Option<User>
  {
    if SignInSucceeds(e) then Some(e.reply.user)
    else if e.Rehydrate? && e.me.Found? then Some(e.me.user)
    else None
  }

  /** The specification of every transition of the context. */
  function Step(s: Session, e: Event): Session
  {
    match e
    case Login(Issued(t, u)) => Session(Some(t), Some(u), true, Some(LoginTarget(u.role)))
    case Register(Issued(t, u)) => Session(Some(t), Some(u), true, Some(BookPath))
    case GuestLogin(Issued(t, u)) => Session(Some(t), Some(u), true, Some(GuestPortalPath))
    case Login(Failed) => s
    case Register(Failed) => s
    case GuestLogin(Failed) => s
    case Logout => Session(None, None, false, Some(HomePath))
    case Rehydrate(me) =>
      if !HasStoredToken(s.token) then s
      else match me
        case Found(u) => s.(user := Some(u), isAuthenticated := true)
        case Rejected => s.(token := None)
  }

  /** A sequence of transitions applied in order. */
  function Run(s: Session, es: seq<Event>): Session
    decreases |es|
  {
    if es == [] then s else Run(Step(s, es[0]), es[1..])
  }

  /** How the promise of a sign-in settles: it rethrows exactly when the request failed. */
  function SignInOutcome(reply: AuthReply): Settled
  {
    if reply.Issued? then Fulfilled else Thrown
  }

  // ---------------------------------------------------------------------
  // What the transitions promise
  // ---------------------------------------------------------------------

  /** The mount state, whatever storage holds, has `isAuthenticated <==> user != null`. */
  lemma InitialIsValid(stored: Option<string>)
    ensures ValidSession(Initial(stored))
  {
  }

  /** Every transition keeps `isAuthenticated <==> user != null`. */
  lemma StepKeepsValid(s: Session, e: Event)
    requires ValidSession(s)
    ensures ValidSession(Step(s, e))
  {
  }

  /** Any sequence of transitions keeps `isAuthenticated <==> user != null`. */
  lemma {:induction false} RunKeepsValid(s: Session, es: seq<Event>)
    requires ValidSession(s)
    ensures ValidSession(Run(s, es))
    decreases |es|
  {
    if es != [] {
      StepKeepsValid(s, es[0]);
      RunKeepsValid(Step(s, es[0]), es[1..]);
    }
  }

  /** A successful sign-in persists exactly the server's token, holds the server's user and sets the flag. */
  lemma SignInInstallsServerSession(s: Session, e: Event)
    requires SignInSucceeds(e)
    ensures Step(s, e).token == Some(e.reply.token)
    ensures Step(s, e).user == Some(e.reply.user)
    ensures Step(s, e).isAuthenticated
    ensures Step(s, e).lastNav == Some(SignInTarget(e))
  {
  }

  /** A successful sign-in overwrites the prior session: the result does not depend on it. */
  lemma SignInForgetsPriorSession(s1: Session, s2: Session, e: Event)
    requires SignInSucceeds(e)
    ensures Step(s1, e) == Step(s2, e)
  {
  }

  /** Login goes to the operator dashboard for an operator and to the guest portal otherwise. */
  lemma LoginNavigatesByRole(s: Session, token: string, u: User)
    ensures u.role == Operator ==> Step(s, Login(Issued(token, u))).lastNav == Some("/operator-dashboard")
    ensures u.role != Operator ==> Step(s, Login(Issued(token, u))).lastNav == Some("/guest-portal")
  {
  }

  /** Register always goes to /book and guest login always to /guest-portal, whatever the role. */
  lemma RegisterAndGuestLoginIgnoreRole(s: Session, token: string, u: User)
    ensures Step(s, Register(Issued(token, u))).lastNav == Some("/book")
    ensures Step(s, GuestLogin(Issued(token, u))).lastNav == Some("/guest-portal")
  {
  }

  /** A failed sign-in rethrows and changes nothing: no token write, no user change, no navigation. */
  lemma FailedSignInChangesNothing(s: Session, e: Event)
    requires IsSignIn(e) && e.reply.Failed?
    ensures Step(s, e) == s
    ensures SignInOutcome(e.reply) == Thrown
  {
  }

  /** Logout removes the token, clears the user and the flag and goes home, from any state. */
  lemma LogoutClears(s: Session)
    ensures Step(s, Logout) == Session(None, None, false, Some("/"))
  {
  }

  /** Logging out twice is the same as logging out once. */
  lemma LogoutIdempotent(s: Session)
    ensures Step(Step(s, Logout), Logout) == Step(s, Logout)
  {
  }

  /** The three cases of startup rehydration. */
  lemma RehydrateCases(s: Session, me: MeReply)
    ensures !HasStoredToken(s.token) ==> Step(s, Rehydrate(me)) == s
    ensures HasStoredToken(s.token) && me.Found? ==>
      Step(s, Rehydrate(me)) == Session(s.token, Some(me.user), true, s.lastNav)
    ensures HasStoredToken(s.token) && me.Rejected? ==>
      Step(s, Rehydrate(me)) == Session(None, s.user, s.isAuthenticated, s.lastNav)
  {
  }

  /**
   * Reloading after a successful sign-in with a non-empty token, and having
   * /me answer with the same user, restores the same session.
   */
  lemma ReloadRestoresSession(s: Session, e: Event)
    requires SignInSucceeds(e) && e.reply.token != ""
    ensures var signedIn := Step(s, e);
            var restored := Step(Initial(signedIn.token), Rehydrate(Found(e.reply.user)));
            restored.token == signedIn.token && restored.user == signedIn.user && restored.isAuthenticated
  {
  }

  /** A stale token at startup: /me is refused, storage ends empty and no session is held. */
  lemma StaleTokenScenario()
    ensures Step(Initial(Some("abc123")), Rehydrate(Rejected)) == Session(None, None, false, None)
  {
  }

  /** Email login of a guest-role user: the user is held, the token is "t1" and the guest portal is the target. */
  lemma GuestRoleLoginScenario()
    ensures var u := User("1", "a@b.com", Guest, None);
            Step(Initial(None), Login(Issued("t1", u))) == Session(Some("t1"), Some(u), true, Some("/guest-portal"))
  {
  }

  /**
   * The token in storage after any sequence of transitions was either there
   * at the start or issued by the server in one of them: the client never
   * invents a token.
   */
  lemma {:induction false} TokenComesFromStorageOrServer(s: Session, es: seq<Event>)
    ensures var r := Run(s, es);
            r.token.None? || r.token == s.token || exists i :: 0 <= i < |es| && IssuedToken(es[i]) == r.token
    decreases |es|
  {
    if es != [] {
      var s' := Step(s, es[0]);
      var r := Run(s, es);
      assert r == Run(s', es[1..]);
      TokenComesFromStorageOrServer(s', es[1..]);
      if r.token.Some? && r.token != s'.token {
        var i :| 0 <= i < |es[1..]| && IssuedToken(es[1..][i]) == r.token;
        assert IssuedToken(es[i + 1]) == r.token;
      } else if r.token.Some? && r.token != s.token {
        assert IssuedToken(es[0]) == r.token;
      }
    }
  }

  /**
   * The user held after any sequence of transitions was either held at the
   * start or sent by the server in one of them.
   */
  lemma {:induction false} UserComesFromServer(s: Session, es: seq<Event>)
    ensures var r := Run(s, es);
            r.user.None? || r.user == s.user || exists i :: 0 <= i < |es| && ServerUser(es[i]) == r.user
    decreases |es|
  {
    if es != [] {
      var s' := Step(s, es[0]);
      var r := Run(s, es);
      assert r == Run(s', es[1..]);
      UserComesFromServer(s', es[1..]);
      if r.user.Some? && r.user != s'.user {
        var i :| 0 <= i < |es[1..]| && ServerUser(es[1..][i]) == r.user;
        assert ServerUser(es[i + 1]) == r.user;
      } else if r.user.Some? && r.user != s.user {
        assert ServerUser(es[0]) == r.user;
      }
    }
  }

  /** Valid, and an authenticated session always has a token in storage. */
  predicate Consistent(s: Session)
  {
    ValidSession(s) && (s.isAuthenticated ==> s.token.Some?)
  }

  /** Transitions other than rehydration keep a session consistent. */
  lemma {:induction false} RunWithoutRehydrateKeepsConsistent(s: Session, es: seq<Event>)
    requires Consistent(s)
    requires forall i :: 0 <= i < |es| ==> !es[i].Rehydrate?
    ensures Consistent(Run(s, es))
    decreases |es|
  {
    if es != [] {
      assert !es[0].Rehydrate?;
      assert Consistent(Step(s, es[0]));
      assert forall i :: 0 <= i < |es[1..]| ==> !es[1..][i].Rehydrate? by {
        forall i | 0 <= i < |es[1..]| ensures !es[1..][i].Rehydrate? {
          assert es[1..][i] == es[i + 1];
        }
      }
      RunWithoutRehydrateKeepsConsistent(Step(s, es[0]), es[1..]);
    }
  }

  /**
   * From mount, with rehydration (if any) as the first transition, the
   * session stays consistent: authenticated implies a persisted token.
   */
  lemma StartupKeepsConsistent(stored: Option<string>, es: seq<Event>)
    requires forall i :: 1 <= i < |es| ==> !es[i].Rehydrate?
    ensures Consistent(Run(Initial(stored), es))
  {
    if es == [] {
    } else {
      var s1 := Step(Initial(stored), es[0]);
      assert Consistent(s1);
      assert forall i :: 0 <= i < |es[1..]| ==> !es[1..][i].Rehydrate? by {
        forall i | 0 <= i < |es[1..]| ensures !es[1..][i].Rehydrate? {
          assert es[1..][i] == es[i + 1];
        }
      }
      RunWithoutRehydrateKeepsConsistent(s1, es[1..]);
    }
  }

  /**
   * Why rehydration must come first: a rehydration whose /me fails after a
   * login removes the new token and keeps the user.
   */
  lemma LateRehydrateBreaksConsistency()
    ensures var u := User("1", "a@b.com", Guest, None);
            var s := Run(Initial(Some("old")), [Login(Issued("t1", u)), Rehydrate(Rejected)]);
            s.isAuthenticated && s.token.None?
  {
    var u := User("1", "a@b.com", Guest, None);
    var es := [Login(Issued("t1", u)), Rehydrate(Rejected)];
    var s1 := Step(Initial(Some("old")), es[0]);
    assert es[1..] == [Rehydrate(Rejected)];
    assert Run(s1, es[1..]) == Run(Step(s1, Rehydrate(Rejected)), []);
  }

  // ---------------------------------------------------------------------
  // The provider, on fields
  // ---------------------------------------------------------------------

  /** The router's navigate: records the last target. */
  class Navigator {
    var lastNav: Option<string>

    constructor()
      ensures lastNav == None
    {
      lastNav := None;
    }

    method Navigate(to: string)
      modifies this
      ensures lastNav == Some(to)
    {
      lastNav := Some(to);
    }
  }

  /** The context provider: in-memory user and flag, the storage slot, and the router it navigates. */
  class AuthProvider {
    /** localStorage["jwtToken"] */
    var token: Option<string>
    var user: Option<User>
    var isAuthenticated: bool
    const nav: Navigator

    function Snapshot(): Session
      reads this, nav
    {
      Session(token, user, isAuthenticated, nav.lastNav)
    }

    predicate Valid()
      reads this, nav
    {
      ValidSession(Snapshot())
    }

    /** Mounting the provider: storage keeps what it held, memory starts empty. */
    constructor(stored: Option<string>, nav: Navigator)
      ensures Valid()
      ensures this.nav == nav
      ensures Snapshot() == Initial(stored).(lastNav := nav.lastNav)
    {
      token := stored;
      user := None;
      isAuthenticated := false;
      this.nav := nav;
    }

    /** The startup effect, given the answer of GET /api/auth/me (ignored when no token is stored). */
    method Rehydrate(me: MeReply)
      modifies this
      ensures old(Valid()) ==> Valid()
      ensures Snapshot() == Step(old(Snapshot()), Event.Rehydrate(me))
    {
      if HasStoredToken(token) {
        match me
        case Found(u) =>
          user := Some(u);
          isAuthenticated := true;
        case Rejected =>
          token := None;
      }
    }

    /** Writes of a successful sign-in, all after the request has answered. */
    method SignIn(t: string, u: User, target: string)
      modifies this, nav
      ensures Valid()
      ensures Snapshot() == Session(Some(t), Some(u), true, Some(target))
    {
      token := Some(t);
      user := Some(u);
      isAuthenticated := true;
      nav.Navigate(target);
    }

    method Login(email: string, password: string, reply: AuthReply) returns (result: Settled)
      modifies this, nav
      ensures old(Valid()) ==> Valid()
      ensures Snapshot() == Step(old(Snapshot()), Event.Login(reply))
      ensures result == SignInOutcome(reply)
    {
      match reply
      case Failed =>
        result := Thrown;
      case Issued(t, u) =>
        SignIn(t, u, if u.role == Operator then "/operator-dashboard" else "/guest-portal");
        result := Fulfilled;
    }

    method Register(email: string, password: string, fullName: string, reply: AuthReply) returns (result: Settled)
      modifies this, nav
      ensures old(Valid()) ==> Valid()
      ensures Snapshot() == Step(old(Snapshot()), Event.Register(reply))
      ensures result == SignInOutcome(reply)
    {
      match reply
      case Failed =>
        result := Thrown;
      case Issued(t, u) =>
        SignIn(t, u, "/book");
        result := Fulfilled;
    }

    method GuestLogin(roomNumber: string, fullName: string, reply: AuthReply) returns (result: Settled)
      modifies this, nav
      ensures old(Valid()) ==> Valid()
      ensures Snapshot() == Step(old(Snapshot()), Event.GuestLogin(reply))
      ensures result == SignInOutcome(reply)
    {
      match reply
      case Failed =>
        result := Thrown;
      case Issued(t, u) =>
        SignIn(t, u, "/guest-portal");
        result := Fulfilled;
    }

    method Logout()
      modifies this, nav
      ensures Valid()
      ensures Snapshot() == Step(old(Snapshot()), Event.Logout)
    {
      token := None;
      user := None;
      isAuthenticated := false;
      nav.Navigate("/");
    }
  }

  /** The hook: the context value, or the error it throws outside a provider. */
  function UseAuth(context: Option<AuthProvider>): (r: Result<AuthProvider, string>)
    ensures r.Ok? <==> context.Some?
    ensures r.Ok? ==> r.value == context.value
    ensures r.Err? ==> r.error == "useAuth must be used within an AuthProvider"
  {
    match context
    case None => Err("useAuth must be used within an AuthProvider")
    case Some(c) => Ok(c)
  }

  /** A stale token at startup, on the provider itself. */
  method StaleTokenOnProvider() returns (s: Session)
    ensures s == Session(None, None, false, None)
  {
    var nav := new Navigator();
    var auth := new AuthProvider(Some("abc123"), nav);
    auth.Rehydrate(Rejected);
    s := auth.Snapshot();
  }

  /** Login, a failed guest login, then logout, on the provider itself. */
  method LoginThenLogoutOnProvider(u: User) returns (afterLogin: Session, afterFailure: Session, afterLogout: Session)
    ensures afterLogin.token == Some("t1") && afterLogin.user == Some(u) && afterLogin.isAuthenticated
    ensures afterLogin.lastNav == Some(LoginTarget(u.role))
    ensures afterFailure == afterLogin
    ensures afterLogout == Session(None, None, false, Some("/"))
  {
    var nav := new Navigator();
    var auth := new AuthProvider(None, nav);
    var r := auth.Login("a@b.com", "pw", Issued("t1", u));
    afterLogin := auth.Snapshot();
    r := auth.GuestLogin("101", "Ann", Failed);
    afterFailure := auth.Snapshot();
    auth.Logout();
    afterLogout := auth.Snapshot();
  }
}
