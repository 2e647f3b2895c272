/** The authentication session of the Top 5 Lister client, as values.

    The session is a record of the signed-in user and a logged-in flag. It is
    changed only by the reducer, which takes one of four action kinds and
    overwrites the whole record. Five operations drive the reducer; each one
    talks to the remote API, the router and the cookie store, and here those
    three collaborators are reduced to an input (the API's outcome) and an
    ordered trace of the effects the operation performs.
 */
module Auth {

  datatype Option<+T> = None | Some(value: T)

  /** The identity record the server sends back; this module only passes it on. */
  datatype User = User(id: string, username: string)

  /** The state held by the provider: `{user, loggedIn}`. */
  datatype Session = Session(user: Option<User>, loggedIn: bool)

  /** The state the provider starts with: no user, not logged in. */
  const Initial: Session := Session(None, false)

  /** A session in which "not logged in" always comes with "no user". */
  predicate Consistent(s: Session) {
    !s.loggedIn ==> s.user == None
  }

  // ---------------------------------------------------------------------------
  // Effects on the collaborators
  // ---------------------------------------------------------------------------

  /** The remote API's entry points that this module calls. */
  datatype Endpoint = LoginEndpoint | LogoutEndpoint | GetLoggedInEndpoint | RegisterEndpoint

  /** One call of the cookie store's `setCookie(name, value, days)`. */
  datatype CookieWrite = CookieWrite(name: string, value: string, expiryDays: nat)

  /** Everything an operation does outside the session record, in the order it does it. */
  datatype Effect =
    | ApiCall(endpoint: Endpoint)
    | Redirect(path: string)
    | SetCookie(write: CookieWrite)
    | SetAuth(session: Session)

  /** The one cookie this module reads and writes. */
  const CookieName: string := "loggedIn"

  /** Every write of that cookie keeps it for two days. */
  const CookieExpiryDays: nat := 2

  /** The value the model records for `setCookie('loggedIn', true, 2)`. */
  const RememberedValue: string := "true"

  /** The application root, the only place the operations redirect to. */
  const Root: string := "/"

  const LoginFallback: string := "I'm not sure what happened..."
  const RegisterFallback: string := "Something is wrong with the server..."

  /** The redirects recorded in a trace, in order. */
  function Redirects(t: seq<Effect>): seq<string> {
    if t == [] then []
    else (if t[0].Redirect? then [t[0].path] else []) + Redirects(t[1..])
  }

  /** The API calls recorded in a trace, in order. */
  function ApiCalls(t: seq<Effect>): seq<Endpoint> {
    if t == [] then []
    else (if t[0].ApiCall? then [t[0].endpoint] else []) + ApiCalls(t[1..])
  }

  /** The cookie writes recorded in a trace, in order. */
  function CookieWrites(t: seq<Effect>): seq<CookieWrite> {
    if t == [] then []
    else (if t[0].SetCookie? then [t[0].write] else []) + CookieWrites(t[1..])
  }

  /** What the provider holds and has done: its session, the current value of the
      `loggedIn` cookie ("" when absent, which the startup check treats as falsy)
      and the trace of effects so far. */
  datatype World = World(session: Session, cookie: string, trace: seq<Effect>)

  /** A fresh provider, mounted in a browser whose `loggedIn` cookie is `cookie`. */
  function Fresh(cookie: string): World {
    World(Initial, cookie, [])
  }

  /** The three views of a trace distribute over concatenation. */
  lemma {:induction false} ViewsOfAppend(a: seq<Effect>, b: seq<Effect>)
    ensures Redirects(a + b) == Redirects(a) + Redirects(b)
    ensures ApiCalls(a + b) == ApiCalls(a) + ApiCalls(b)
    ensures CookieWrites(a + b) == CookieWrites(a) + CookieWrites(b)
    decreases |a|
  {
    if a != [] {
      assert (a + b)[1..] == a[1..] + b;
      ViewsOfAppend(a[1..], b);
    } else {
      assert a + b == b;
    }
  }

  /** Appending one effect adds to exactly the view it belongs to. */
  lemma ViewsOfExtend(t: seq<Effect>, e: Effect)
    ensures Redirects(t + [e]) == Redirects(t) + (if e.Redirect? then [e.path] else [])
    ensures ApiCalls(t + [e]) == ApiCalls(t) + (if e.ApiCall? then [e.endpoint] else [])
    ensures CookieWrites(t + [e]) == CookieWrites(t) + (if e.SetCookie? then [e.write] else [])
  {
    ViewsOfAppend(t, [e]);
    assert [e][1..] == [];
  }

  /** `setCookie('loggedIn', value, 2)`: one more cookie write, and the cookie now
      holds `value`; no redirect, no API call, the session untouched. */
  function WriteCookie(w: World, value: string): (r: World)
    ensures r.cookie == value && r.session == w.session
    ensures CookieWrites(r.trace) == CookieWrites(w.trace) + [CookieWrite(CookieName, value, CookieExpiryDays)]
    ensures Redirects(r.trace) == Redirects(w.trace) && ApiCalls(r.trace) == ApiCalls(w.trace)
  {
    var e := SetCookie(CookieWrite(CookieName, value, CookieExpiryDays));
    ViewsOfExtend(w.trace, e);
    w.(cookie := value, trace := w.trace + [e])
  }

  /** `history.push(path)`: one more redirect and nothing else. */
  function Push(w: World, path: string): (r: World)
    ensures r.session == w.session && r.cookie == w.cookie
    ensures Redirects(r.trace) == Redirects(w.trace) + [path]
    ensures ApiCalls(r.trace) == ApiCalls(w.trace) && CookieWrites(r.trace) == CookieWrites(w.trace)
  {
    ViewsOfExtend(w.trace, Redirect(path));
    w.(trace := w.trace + [Redirect(path)])
  }

  /** Issuing a call to the remote API: one more API call and nothing else. */
  function Call(w: World, e: Endpoint): (r: World)
    ensures r.session == w.session && r.cookie == w.cookie
    ensures ApiCalls(r.trace) == ApiCalls(w.trace) + [e]
    ensures Redirects(r.trace) == Redirects(w.trace) && CookieWrites(r.trace) == CookieWrites(w.trace)
  {
    ViewsOfExtend(w.trace, ApiCall(e));
    w.(trace := w.trace + [ApiCall(e)])
  }

  /** `setAuth(s)`: the session becomes `s`; cookie, redirects and API calls stay. */
  function SetAuthTo(w: World, s: Session): (r: World)
    ensures r.session == s && r.cookie == w.cookie
    ensures Redirects(r.trace) == Redirects(w.trace)
    ensures ApiCalls(r.trace) == ApiCalls(w.trace) && CookieWrites(r.trace) == CookieWrites(w.trace)
  {
    ViewsOfExtend(w.trace, SetAuth(s));
    w.(session := s, trace := w.trace + [SetAuth(s)])
  }

  // ---------------------------------------------------------------------------
  // The reducer
  // ---------------------------------------------------------------------------

  /** A dispatched action: the four kinds the reducer knows, each with the payload
      fields it reads, and any other kind. */
  datatype Action =
    | GetLoggedInAction(user: Option<User>, loggedIn: bool)
    | SetLoggedInAction(user: Option<User>, loggedIn: bool)
    | SetLoggedOutAction
    | RegisterUserAction(user: Option<User>)
    | UnknownAction(kind: string)

  /** The session `authReducer` computes from the current one. */
  function Reduce(s: Session, a: Action): Session {
    match a
    case GetLoggedInAction(u, b) => Session(u, b)
    case SetLoggedInAction(u, _) => Session(u, true)
    case SetLoggedOutAction => Session(None, false)
    case RegisterUserAction(u) => Session(u, true)
    case UnknownAction(_) => s
  }

  /** `authReducer(action)` with its effects: SET_LOGGED_OUT first clears the cookie,
      every known kind then calls `setAuth`, and an unknown kind does nothing. */
  function Dispatch(w: World, a: Action): (r: World)
    ensures r.session == Reduce(w.session, a)
    ensures r.cookie == if a.SetLoggedOutAction? then "" else w.cookie
    ensures CookieWrites(r.trace) == CookieWrites(w.trace) +
              (if a.SetLoggedOutAction? then [CookieWrite(CookieName, "", CookieExpiryDays)] else [])
    ensures Redirects(r.trace) == Redirects(w.trace) && ApiCalls(r.trace) == ApiCalls(w.trace)
  {
    match a
    case UnknownAction(_) => w
    case SetLoggedOutAction => SetAuthTo(WriteCookie(w, ""), Reduce(w.session, a))
    case _ => SetAuthTo(w, Reduce(w.session, a))
  }

  /** The session after dispatching `acts` one after another. */
  function ReduceAll(s: Session, acts: seq<Action>): Session
    decreases |acts|
  {
    if acts == [] then s
    else Reduce(ReduceAll(s, acts[..|acts| - 1]), acts[|acts| - 1])
  }

  /** The last action in `acts` whose kind the reducer knows, if any. */
  function LastKnown(acts: seq<Action>): Option<Action>
    decreases |acts|
  {
    if acts == [] then None
    else if !acts[|acts| - 1].UnknownAction? then Some(acts[|acts| - 1])
    else LastKnown(acts[..|acts| - 1])
  }

  // ---------------------------------------------------------------------------
  // The operations
  // ---------------------------------------------------------------------------

  /** How a call to the remote API ended: resolved with a response, rejected with
      an error that carries a response, or rejected with an error that has none
      (a network failure). `loggedIn` is read only by getLoggedIn. */
  datatype ApiOutcome =
    | Ok(status: int, user: Option<User>, loggedIn: bool)
    | ErrResponse(status: int, errorMessage: string)
    | ErrNoResponse

  /** How an operation's promise settles: with a string, or rejected. */
  datatype Completion = Returned(message: string) | Thrown

  datatype Step = Step(world: World, completion: Completion)

  /** `loginUser(payload, rememberMe)`. On a 200 response it redirects to the root,
      then dispatches SET_LOGGED_IN, then remembers the login if asked. A failure
      leaves the world as the API call left it and is turned into a message, except
      an error without a response, on which the catch block itself throws. */
  function LoginUser(w: World, res: ApiOutcome, rememberMe: bool): Step {
    var called := Call(w, LoginEndpoint);
    match res
    case Ok(status, u, _) =>
      if status == 200 then
        var signedIn := Dispatch(Push(called, Root), SetLoggedInAction(u, true));
        Step(if rememberMe then WriteCookie(signedIn, RememberedValue) else signedIn, Returned(""))
      else
        Step(called, Returned(""))
    case ErrResponse(status, msg) =>
      Step(called, Returned(if status == 400 then msg else LoginFallback))
    case ErrNoResponse =>
      Step(called, Thrown)
  }

  /** `logoutUser()`. The API call is not awaited, so its outcome never reaches the
      operation: SET_LOGGED_OUT and the redirect happen whatever it is. */
  function LogoutUser(w: World): World {
    Push(Dispatch(Call(w, LogoutEndpoint), SetLoggedOutAction), Root)
  }

  /** `getLoggedIn()`. A 200 response dispatches SET_LOGGED_IN (not GET_LOGGED_IN),
      so the server's `loggedIn` is dropped and the flag is forced to true. Every
      failure is caught and logged; logging is not modelled, so the failure paths,
      including the one where logging a null user throws after the dispatch, leave
      the world as it was after the call and the dispatch. */
  function GetLoggedIn(w: World, res: ApiOutcome): World {
    var called := Call(w, GetLoggedInEndpoint);
    match res
    case Ok(status, u, b) =>
      if status == 200 then Dispatch(called, SetLoggedInAction(u, b)) else called
    case _ => called
  }

  /** `registerUser(userData, store)`. On a 200 response it dispatches REGISTER_USER
      and then redirects; it never touches the cookie. Failures as in LoginUser,
      with its own fallback message. */
  function RegisterUser(w: World, res: ApiOutcome): Step {
    var called := Call(w, RegisterEndpoint);
    match res
    case Ok(status, u, _) =>
      if status == 200 then
        Step(Push(Dispatch(called, RegisterUserAction(u)), Root), Returned(""))
      else
        Step(called, Returned(""))
    case ErrResponse(status, msg) =>
      Step(called, Returned(if status == 400 then msg else RegisterFallback))
    case ErrNoResponse =>
      Step(called, Thrown)
  }

  /** `loginAsGuest()`: SET_LOGGED_IN with no user, and nothing else. */
  function LoginAsGuest(w: World): World {
    Dispatch(w, SetLoggedInAction(None, true))
  }

  /** The mount-time effect: fetch the session once if the cookie is truthy. */
  function Startup(w: World, res: ApiOutcome): World {
    if w.cookie != "" then GetLoggedIn(w, res) else w
  }

  // ---------------------------------------------------------------------------
  // Sequences of operations
  // ---------------------------------------------------------------------------

  /** One user- or startup-triggered operation, with the API outcome it meets. */
  datatype Op =
    | LoginOp(res: ApiOutcome, rememberMe: bool)
    | LogoutOp
    | GetLoggedInOp(res: ApiOutcome)
    | RegisterOp(res: ApiOutcome)
    | GuestOp

  function Apply(w: World, op: Op): World {
    match op
    case LoginOp(res, remember) => LoginUser(w, res, remember).world
    case LogoutOp => LogoutUser(w)
    case GetLoggedInOp(res) => GetLoggedIn(w, res)
    case RegisterOp(res) => RegisterUser(w, res).world
    case GuestOp => LoginAsGuest(w)
  }

  /** The world after running `ops` one after another, each as one atomic step. */
  function Run(w: World, ops: seq<Op>): World
    decreases |ops|
  {
    if ops == [] then w else Run(Apply(w, ops[0]), ops[1..])
  }

  /** The operations that redirect to the root: a successful login, a successful
      registration, and every logout. */
  predicate Redirecting(op: Op) {
    match op
    case LoginOp(res, _) => res.Ok? && res.status == 200
    case RegisterOp(res) => res.Ok? && res.status == 200
    case LogoutOp => true
    case _ => false
  }

  /** How many of `ops` redirect. */
  function RedirectingCount(ops: seq<Op>): nat
    decreases |ops|
  {
    if ops == [] then 0
    else (if Redirecting(ops[0]) then 1 else 0) + RedirectingCount(ops[1..])
  }
}
