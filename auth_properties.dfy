/** What the reducer and the five operations of the authentication session promise. */
module AuthProperties {
  import opened Auth

  // ---------------------------------------------------------------------------
  // The reducer
  // ---------------------------------------------------------------------------

  /** Every known kind overwrites the whole session: the result does not depend on
      the session it is applied to. An unknown kind leaves the session as it is. */
  lemma ReduceOverwrites(s1: Session, s2: Session, a: Action)
    ensures !a.UnknownAction? ==> Reduce(s1, a) == Reduce(s2, a)
    ensures a.UnknownAction? ==> Reduce(s1, a) == s1
  {
  }

  /** Applying any action twice gives the same session as applying it once. */
  lemma ReduceIdempotent(s: Session, a: Action)
    ensures Reduce(Reduce(s, a), a) == Reduce(s, a)
  {
  }

  /** SET_LOGGED_IN and REGISTER_USER always log in with the payload's user;
      SET_LOGGED_IN ignores the payload's `loggedIn`, GET_LOGGED_IN copies it. */
  lemma ReduceLogsIn(s: Session, u: Option<User>, b: bool)
    ensures Reduce(s, SetLoggedInAction(u, b)) == Session(u, true)
    ensures Reduce(s, RegisterUserAction(u)) == Session(u, true)
    ensures Reduce(s, GetLoggedInAction(u, b)) == Session(u, b)
  {
  }

  /** SET_LOGGED_OUT leaves the initial session and clears the cookie for two days;
      dispatching it a second time changes neither the session nor the cookie. */
  lemma LoggedOutTwiceIsLoggedOutOnce(w: World)
    ensures Dispatch(w, SetLoggedOutAction).session == Initial
    ensures Dispatch(w, SetLoggedOutAction).cookie == ""
    ensures CookieWrites(Dispatch(w, SetLoggedOutAction).trace)
      == CookieWrites(w.trace) + [CookieWrite(CookieName, "", CookieExpiryDays)]
    ensures var once := Dispatch(w, SetLoggedOutAction);
            var twice := Dispatch(once, SetLoggedOutAction);
            twice.session == once.session && twice.cookie == once.cookie
  {
  }

  /** From a consistent session, the only action that can produce "not logged in"
      with a user is GET_LOGGED_IN carrying a user and `loggedIn: false`. */
  lemma ReduceKeepsConsistent(s: Session, a: Action)
    requires Consistent(s)
    ensures !Consistent(Reduce(s, a)) <==> a.GetLoggedInAction? && a.user.Some? && !a.loggedIn
  {
  }

  /** After a sequence of actions the session is what the last known action
      makes of any session; with no known action it is where it started. */
  lemma {:induction false} LastWriterWins(s: Session, acts: seq<Action>)
    ensures LastKnown(acts).None? ==> ReduceAll(s, acts) == s
    ensures LastKnown(acts).Some? ==> ReduceAll(s, acts) == Reduce(s, LastKnown(acts).value)
    decreases |acts|
  {
    if acts != [] {
      var prefix := acts[..|acts| - 1];
      LastWriterWins(s, prefix);
      if !acts[|acts| - 1].UnknownAction? {
        ReduceOverwrites(ReduceAll(s, prefix), s, acts[|acts| - 1]);
      }
    }
  }

  /** No stale user survives: a sequence of actions that starts consistent ends
      "not logged in" with a user only if its last known action is a GET_LOGGED_IN
      that delivered that user with `loggedIn: false`. In particular a user never
      outlives a SET_LOGGED_OUT that no other known action follows. */
  lemma {:induction false} NoStaleUser(s: Session, acts: seq<Action>)
    requires Consistent(s)
    ensures !Consistent(ReduceAll(s, acts)) ==>
      LastKnown(acts).Some? && LastKnown(acts).value.GetLoggedInAction? &&
      LastKnown(acts).value.user == ReduceAll(s, acts).user && !LastKnown(acts).value.loggedIn
    ensures LastKnown(acts) == Some(SetLoggedOutAction) ==> ReduceAll(s, acts) == Initial
  {
    LastWriterWins(s, acts);
  }

  // ---------------------------------------------------------------------------
  // loginUser
  // ---------------------------------------------------------------------------

  /** A 200 response: the result is "", the session is the response's user logged
      in, there is one more redirect and it goes to the root, and the cookie is set
      to "true" for two days exactly when `rememberMe` holds. */
  lemma LoginSucceeds(w: World, u: Option<User>, b: bool, rememberMe: bool)
    ensures var r := LoginUser(w, Ok(200, u, b), rememberMe);
      && r.completion == Returned("")
      && r.world.session == Session(u, true)
      && Redirects(r.world.trace) == Redirects(w.trace) + [Root]
      && ApiCalls(r.world.trace) == ApiCalls(w.trace) + [LoginEndpoint]
      && (rememberMe ==>
            r.world.cookie == RememberedValue &&
            CookieWrites(r.world.trace)
              == CookieWrites(w.trace) + [CookieWrite(CookieName, RememberedValue, CookieExpiryDays)])
      && (!rememberMe ==>
            r.world.cookie == w.cookie && CookieWrites(r.world.trace) == CookieWrites(w.trace))
  {
  }

  /** On success the redirect comes before the session update, and the
      remember-me cookie write, if any, comes last. */
  lemma LoginRedirectsBeforeDispatch(w: World, u: Option<User>, b: bool, rememberMe: bool)
    ensures LoginUser(w, Ok(200, u, b), rememberMe).world.trace
      == w.trace + [ApiCall(LoginEndpoint), Redirect(Root), SetAuth(Session(u, true))] +
         (if rememberMe then [SetCookie(CookieWrite(CookieName, RememberedValue, CookieExpiryDays))] else [])
  {
  }

  /** Every outcome other than a 200 response: the session, the cookie and the
      redirects stay as they were; a resolved non-200 response returns "", a 400
      error returns the server's message verbatim, any other error status the fixed
      fallback, and an error without a response makes the operation throw. */
  lemma LoginFails(w: World, res: ApiOutcome, rememberMe: bool)
    requires !(res.Ok? && res.status == 200)
    ensures var r := LoginUser(w, res, rememberMe);
      && r.world.session == w.session
      && r.world.cookie == w.cookie
      && Redirects(r.world.trace) == Redirects(w.trace)
      && CookieWrites(r.world.trace) == CookieWrites(w.trace)
      && ApiCalls(r.world.trace) == ApiCalls(w.trace) + [LoginEndpoint]
      && (res.Ok? ==> r.completion == Returned(""))
      && (res.ErrResponse? && res.status == 400 ==> r.completion == Returned(res.errorMessage))
      && (res.ErrResponse? && res.status != 400 ==> r.completion == Returned(LoginFallback))
      && (res.ErrNoResponse? <==> r.completion.Thrown?)
  {
  }

  // ---------------------------------------------------------------------------
  // registerUser
  // ---------------------------------------------------------------------------

  /** A 200 response: the result is "", the session is the response's user logged
      in, there is one more redirect, to the root, and the cookie is never written. */
  lemma RegisterSucceeds(w: World, u: Option<User>, b: bool)
    ensures var r := RegisterUser(w, Ok(200, u, b));
      && r.completion == Returned("")
      && r.world.session == Session(u, true)
      && Redirects(r.world.trace) == Redirects(w.trace) + [Root]
      && ApiCalls(r.world.trace) == ApiCalls(w.trace) + [RegisterEndpoint]
      && r.world.cookie == w.cookie
      && CookieWrites(r.world.trace) == CookieWrites(w.trace)
  {
  }

  /** On success the session update comes before the redirect. */
  lemma RegisterDispatchesBeforeRedirect(w: World, u: Option<User>, b: bool)
    ensures RegisterUser(w, Ok(200, u, b)).world.trace
      == w.trace + [ApiCall(RegisterEndpoint), SetAuth(Session(u, true)), Redirect(Root)]
  {
  }

  /** The same failure policy as loginUser, with the registration fallback. */
  lemma RegisterFails(w: World, res: ApiOutcome)
    requires !(res.Ok? && res.status == 200)
    ensures var r := RegisterUser(w, res);
      && r.world.session == w.session
      && r.world.cookie == w.cookie
      && Redirects(r.world.trace) == Redirects(w.trace)
      && CookieWrites(r.world.trace) == CookieWrites(w.trace)
      && ApiCalls(r.world.trace) == ApiCalls(w.trace) + [RegisterEndpoint]
      && (res.Ok? ==> r.completion == Returned(""))
      && (res.ErrResponse? && res.status == 400 ==> r.completion == Returned(res.errorMessage))
      && (res.ErrResponse? && res.status != 400 ==> r.completion == Returned(RegisterFallback))
      && (res.ErrNoResponse? <==> r.completion.Thrown?)
  {
  }

  // ---------------------------------------------------------------------------
  // logoutUser, loginAsGuest, getLoggedIn, startup
  // ---------------------------------------------------------------------------

  /** From any world: the initial session, the cookie cleared for two days, one API
      call and one redirect to the root. */
  lemma LogoutResets(w: World)
    ensures var r := LogoutUser(w);
      && r.session == Initial
      && r.cookie == ""
      && CookieWrites(r.trace) == CookieWrites(w.trace) + [CookieWrite(CookieName, "", CookieExpiryDays)]
      && Redirects(r.trace) == Redirects(w.trace) + [Root]
      && ApiCalls(r.trace) == ApiCalls(w.trace) + [LogoutEndpoint]
  {
  }

  /** A successful registration followed by a logout returns the session to the
      state the provider starts with. */
  lemma RegisterThenLogoutIsInitial(cookie: string, u: Option<User>, b: bool)
    ensures LogoutUser(RegisterUser(Fresh(cookie), Ok(200, u, b)).world).session == Fresh(cookie).session
  {
  }

  /** A guest login: no user, logged in; no API call, no cookie write, no redirect. */
  lemma GuestIsLocal(w: World)
    ensures var r := LoginAsGuest(w);
      && r.session == Session(None, true)
      && ApiCalls(r.trace) == ApiCalls(w.trace)
      && CookieWrites(r.trace) == CookieWrites(w.trace) && r.cookie == w.cookie
      && Redirects(r.trace) == Redirects(w.trace)
  {
  }

  /** getLoggedIn never redirects and never writes the cookie. A 200 response logs in
      the response's user whatever the server said about `loggedIn`; every other
      outcome, thrown errors included, leaves the session as it was. */
  lemma GetLoggedInPolicy(w: World, res: ApiOutcome)
    ensures var r := GetLoggedIn(w, res);
      && Redirects(r.trace) == Redirects(w.trace)
      && CookieWrites(r.trace) == CookieWrites(w.trace) && r.cookie == w.cookie
      && ApiCalls(r.trace) == ApiCalls(w.trace) + [GetLoggedInEndpoint]
      && (res.Ok? && res.status == 200 ==> r.session == Session(res.user, true))
      && (!(res.Ok? && res.status == 200) ==> r.session == w.session)
  {
  }

  /** Startup fetches the session exactly once when the cookie is truthy and not at
      all otherwise; it never redirects. */
  lemma StartupFetchesIffCookie(w: World, res: ApiOutcome)
    ensures var r := Startup(w, res);
      && ApiCalls(r.trace) == ApiCalls(w.trace) + (if w.cookie != "" then [GetLoggedInEndpoint] else [])
      && Redirects(r.trace) == Redirects(w.trace)
    ensures w.cookie == "" ==> Startup(w, res) == w
  {
  }

  /** After a logout the cookie is falsy, so a provider mounted later makes no
      call and stays anonymous. */
  lemma NoFetchAfterLogout(w: World, res: ApiOutcome)
    ensures var later := Fresh(LogoutUser(w).cookie);
      Startup(later, res) == later && later.session == Initial
  {
  }

  // ---------------------------------------------------------------------------
  // Sequences of operations
  // ---------------------------------------------------------------------------

  /** Every operation keeps the session consistent. */
  lemma ApplyKeepsConsistent(w: World, op: Op)
    requires Consistent(w.session)
    ensures Consistent(Apply(w, op).session)
  {
  }

  /** However the operations are sequenced, "not logged in" never comes with a user. */
  lemma {:induction false} RunKeepsConsistent(w: World, ops: seq<Op>)
    requires Consistent(w.session)
    ensures Consistent(Run(w, ops).session)
    decreases |ops|
  {
    if ops != [] {
      ApplyKeepsConsistent(w, ops[0]);
      RunKeepsConsistent(Apply(w, ops[0]), ops[1..]);
    }
  }

  /** One operation redirects, once and to the root, exactly when it is a
      successful login, a successful registration or a logout. */
  lemma ApplyRedirects(w: World, op: Op)
    ensures Redirects(Apply(w, op).trace)
      == Redirects(w.trace) + (if Redirecting(op) then [Root] else [])
  {
  }

  /** Over a sequence of operations the redirects added are one root redirect per
      redirecting operation and no others. */
  lemma {:induction false} RunRedirects(w: World, ops: seq<Op>)
    ensures |Redirects(Run(w, ops).trace)| == |Redirects(w.trace)| + RedirectingCount(ops)
    ensures (forall i :: 0 <= i < |Redirects(w.trace)| ==> Redirects(w.trace)[i] == Root) ==>
            (forall i :: 0 <= i < |Redirects(Run(w, ops).trace)| ==> Redirects(Run(w, ops).trace)[i] == Root)
    decreases |ops|
  {
    if ops != [] {
      var next := Apply(w, ops[0]);
      ApplyRedirects(w, ops[0]);
      RunRedirects(next, ops[1..]);
    }
  }

  // ---------------------------------------------------------------------------
  // Scenarios
  // ---------------------------------------------------------------------------

  /** Bad credentials: the server's 400 message comes back verbatim, with no
      redirect, and the session stays anonymous. */
  lemma BadCredentialsScenario()
    ensures var r := LoginUser(Fresh(""), ErrResponse(400, "Invalid credentials"), false);
      r.completion == Returned("Invalid credentials") && Redirects(r.world.trace) == [] &&
      r.world.session == Initial
  {
  }

  /** A remembered startup whose probe succeeds logs the returned user in, after
      exactly one call. */
  lemma RememberedStartupScenario(u: User)
    ensures var r := Startup(Fresh(RememberedValue), Ok(200, Some(u), true));
      ApiCalls(r.trace) == [GetLoggedInEndpoint] && r.session == Session(Some(u), true)
  {
  }
}
