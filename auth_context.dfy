/** The provider of the authentication context: the mutable record the React
    component holds with `useState`, and the operations it attaches to it. Each
    method does what the corresponding function of `Auth` describes, step by step
    and in the same order, on the object's fields. */
module AuthContext {
  import opened Auth

  class Provider {
    var user: Option<User>
    var loggedIn: bool
    /** The `loggedIn` cookie, "" when absent. */
    var cookie: string
    /** Every effect on the API, the router, the cookie store and `setAuth`, in order. */
    var trace: seq<Effect>

    /** The provider's state as a value. */
    function Snapshot(): World
      reads this
    {
      World(Session(user, loggedIn), cookie, trace)
    }

    /** The session invariant: "not logged in" comes with no user. */
    predicate Valid()
      reads this
    {
      Consistent(Session(user, loggedIn))
    }

    /** `useState({user: null, loggedIn: false})`, in a browser whose `loggedIn`
        cookie holds `storedCookie`. */
    constructor (storedCookie: string)
      ensures Snapshot() == Fresh(storedCookie) && Valid()
    {
      user, loggedIn := None, false;
      cookie := storedCookie;
      trace := [];
    }

    method StoreCookie(value: string)
      modifies this
      ensures Snapshot() == WriteCookie(old(Snapshot()), value)
    {
      cookie := value;
      trace := trace + [SetCookie(CookieWrite(CookieName, value, CookieExpiryDays))];
    }

    method HistoryPush(path: string)
      modifies this
      ensures Snapshot() == Push(old(Snapshot()), path)
    {
      trace := trace + [Redirect(path)];
    }

    method CallApi(e: Endpoint)
      modifies this
      ensures Snapshot() == Call(old(Snapshot()), e)
    {
      trace := trace + [ApiCall(e)];
    }

    method UpdateAuth(s: Session)
      modifies this
      ensures Snapshot() == SetAuthTo(old(Snapshot()), s)
    {
      user, loggedIn := s.user, s.loggedIn;
      trace := trace + [SetAuth(s)];
    }

    /** `authReducer(action)`. */
    method Dispatch(a: Action)
      modifies this
      ensures Snapshot() == Auth.Dispatch(old(Snapshot()), a)
    {
      match a
      case GetLoggedInAction(u, b) =>
        UpdateAuth(Session(u, b));
      case SetLoggedInAction(u, _) =>
        UpdateAuth(Session(u, true));
      case SetLoggedOutAction =>
        StoreCookie("");
        UpdateAuth(Session(None, false));
      case RegisterUserAction(u) =>
        UpdateAuth(Session(u, true));
      case UnknownAction(_) =>
    }

    /** `auth.loginUser(payload, rememberMe)`, meeting the API outcome `res`. */
    method LoginUser(res: ApiOutcome, rememberMe: bool) returns (c: Completion)
      modifies this
      ensures Snapshot() == Auth.LoginUser(old(Snapshot()), res, rememberMe).world
      ensures c == Auth.LoginUser(old(Snapshot()), res, rememberMe).completion
      ensures old(Valid()) ==> Valid()
    {
      CallApi(LoginEndpoint);
      match res
      case Ok(status, u, _) =>
        if status == 200 {
          HistoryPush(Root);
          Dispatch(SetLoggedInAction(u, true));
          if rememberMe {
            StoreCookie(RememberedValue);
          }
        }
        c := Returned("");
      case ErrResponse(status, msg) =>
        if status == 400 {
          c := Returned(msg);
        } else {
          c := Returned(LoginFallback);
        }
      case ErrNoResponse =>
        c := Thrown;
    }

    /** `auth.logoutUser()`; the API call is not awaited. */
    method LogoutUser()
      modifies this
      ensures Snapshot() == Auth.LogoutUser(old(Snapshot()))
      ensures Valid()
    {
      CallApi(LogoutEndpoint);
      Dispatch(SetLoggedOutAction);
      HistoryPush(Root);
    }

    /** `auth.getLoggedIn()`, meeting the API outcome `res`; it always settles normally. */
    method GetLoggedIn(res: ApiOutcome)
      modifies this
      ensures Snapshot() == Auth.GetLoggedIn(old(Snapshot()), res)
      ensures old(Valid()) ==> Valid()
    {
      CallApi(GetLoggedInEndpoint);
      match res
      case Ok(status, u, b) =>
        if status == 200 {
          Dispatch(SetLoggedInAction(u, b));
        }
      case _ =>
    }

    /** `auth.registerUser(userData, store)`, meeting the API outcome `res`. */
    method RegisterUser(res: ApiOutcome) returns (c: Completion)
      modifies this
      ensures Snapshot() == Auth.RegisterUser(old(Snapshot()), res).world
      ensures c == Auth.RegisterUser(old(Snapshot()), res).completion
      ensures old(Valid()) ==> Valid()
    {
      CallApi(RegisterEndpoint);
      match res
      case Ok(status, u, _) =>
        if status == 200 {
          Dispatch(RegisterUserAction(u));
          HistoryPush(Root);
        }
        c := Returned("");
      case ErrResponse(status, msg) =>
        if status == 400 {
          c := Returned(msg);
        } else {
          c := Returned(RegisterFallback);
        }
      case ErrNoResponse =>
        c := Thrown;
    }

    /** `auth.loginAsGuest()`. */
    method LoginAsGuest()
      modifies this
      ensures Snapshot() == Auth.LoginAsGuest(old(Snapshot()))
      ensures Valid() && loggedIn && user == None
    {
      Dispatch(SetLoggedInAction(None, true));
    }

    /** The mount-time effect: `if (getCookie('loggedIn')) auth.getLoggedIn()`. */
    method Mount(res: ApiOutcome)
      modifies this
      ensures Snapshot() == Startup(old(Snapshot()), res)
      ensures old(Valid()) ==> Valid()
    {
      if cookie != "" {
        GetLoggedIn(res);
      }
    }
  }
}
