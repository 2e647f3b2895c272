# Authentication session of the Top 5 Lister client, in Dafny

This project models the authentication context of the Top 5 Lister web client
(`client/src/context/auth/index.js`). The context holds a session record
`{user, loggedIn}` that starts as `{null, false}`. A reducer changes the record
through four action kinds: GET_LOGGED_IN, SET_LOGGED_IN, SET_LOGGED_OUT and
REGISTER_USER. Five operations drive the reducer: `loginUser`, `logoutUser`,
`getLoggedIn`, `registerUser` and `loginAsGuest`. A mount-time effect calls
`getLoggedIn` when the `loggedIn` cookie is truthy.

The project has three files:

- `auth.dfy` (module `Auth`) models the context as values. A `World` holds the
  session, the current `loggedIn` cookie and an ordered trace of effects. An
  effect is an API call, a redirect, a cookie write (with its expiry) or a
  `setAuth`. The reducer is `Reduce` for the new session and `Dispatch` for the
  session plus its effects. Each operation is a function from a `World` and the
  API's outcome to the next `World` and, for login and register, how the
  operation's promise settles. `Redirects`, `ApiCalls` and `CookieWrites` read
  the trace. `Run` applies a sequence of operations.
- `auth_properties.dfy` (module `AuthProperties`) proves what the reducer and
  the operations promise. This covers the success and failure policies, the
  order of effects, logout's reset, guest mode, the startup probe, and
  invariants over any sequence of actions or operations.
- `auth_context.dfy` (module `AuthContext`) holds the class `Provider`. Its
  fields are `user`, `loggedIn`, `cookie` and `trace`. Its methods perform the
  source's steps in the source's order. Each method's `ensures` ties the new
  state, and what it returns, to the matching function of `Auth`.

The remote API is an input: `ApiOutcome` is `Ok(status, user, loggedIn)`,
`ErrResponse(status, errorMessage)` or `ErrNoResponse`. The router and the
cookie store appear as entries in the effect trace.

Behaviour the model keeps on purpose:

- `getLoggedIn` dispatches SET_LOGGED_IN, not GET_LOGGED_IN. It therefore sets
  `loggedIn` to true even when the server said `loggedIn: false`.
- `loginUser` and `registerUser` return `''` and change nothing else when the
  call resolves with a status other than 200.
- Their catch blocks read `err.response.status` without a guard. An error
  without a response (`ErrNoResponse`) therefore makes the operation throw
  (`Thrown`) instead of returning the fallback message: the catch block itself
  fails, so the promise rejects instead of settling with a string.
- `loginUser` redirects before it dispatches. `registerUser` dispatches before
  it redirects.
- `getLoggedIn` logs `res.data.user.username` after it dispatches. With a null
  user that line throws into the catch block, but the session is already set.
  Logging is not modelled, so in the model this path ends the same way as the
  normal success path.
- `logoutUser` does not wait for its API call. The model therefore gives it no
  outcome: whatever the server does, the session becomes `{null, false}`, the
  cookie is cleared and there is one redirect to the root.

## Model

| member | source | states |
|---|---|---|
| Auth.ViewsOfAppend | client/src/context/auth/index.js:64-145 | The redirects, API calls and cookie writes of two traces joined together are those of the first trace followed by those of the second. |
| Auth.WriteCookie | client/src/context/auth/index.js:47 | A cookie write sets the cookie, adds exactly one write of `loggedIn` with a 2-day expiry, and changes neither the session, the redirects nor the API calls. |
| Auth.Push | client/src/context/auth/index.js:68 | `history.push` adds exactly one redirect, to the given path, and changes nothing else. |
| Auth.Call | client/src/context/auth/index.js:66 | Calling the API adds exactly one API call to that endpoint and changes nothing else. |
| Auth.SetAuthTo | client/src/context/auth/index.js:35-38 | `setAuth` overwrites the session and leaves the cookie, the redirects and the API calls alone. |
| Auth.Dispatch | client/src/context/auth/index.js:31-62 | Dispatching gives the reducer's session. Only SET_LOGGED_OUT touches the cookie: it clears it with one 2-day write. No action redirects or calls the API. |
| AuthProperties.ReduceOverwrites | client/src/context/auth/index.js:31-62 | Each of the four known kinds gives a session that does not depend on the previous one. An unknown kind returns the previous session unchanged. |
| AuthProperties.ReduceIdempotent | client/src/context/auth/index.js:31-62 | Applying any action twice gives the same session as applying it once. |
| AuthProperties.ReduceLogsIn | client/src/context/auth/index.js:34-45 | SET_LOGGED_IN and REGISTER_USER give `{payload.user, true}`, with SET_LOGGED_IN ignoring `payload.loggedIn`. GET_LOGGED_IN copies both fields from the payload. |
| AuthProperties.LoggedOutTwiceIsLoggedOutOnce | client/src/context/auth/index.js:46-51 | SET_LOGGED_OUT gives `{null, false}` and writes cookie `''` with expiry 2. Dispatching it again leaves the same session and cookie. |
| AuthProperties.ReduceKeepsConsistent | client/src/context/auth/index.js:31-62 | Starting from a consistent session, the result is "not logged in with a user" if and only if the action is GET_LOGGED_IN carrying a user and `loggedIn: false`. |
| AuthProperties.LastWriterWins | client/src/context/auth/index.js:31-62 | After any sequence of actions, the session is what the last known action makes of it, or the starting session if no action was known. |
| AuthProperties.NoStaleUser | client/src/context/auth/index.js:31-62 | After a consistent start, "not logged in with a user" can only come from a final GET_LOGGED_IN carrying that user. A final SET_LOGGED_OUT always leaves `{null, false}`. |
| AuthProperties.LoginSucceeds | client/src/context/auth/index.js:64-80 | On a 200 response login returns `''` and gives `{res.data.user, true}`. It adds one API call and exactly one redirect, to `/`. It sets cookie `true` with expiry 2 exactly when `rememberMe` holds and leaves the cookie alone otherwise. |
| AuthProperties.LoginRedirectsBeforeDispatch | client/src/context/auth/index.js:66-78 | On success the new effects are exactly the API call, then the redirect, then the session update, then the remember-me cookie write when `rememberMe` holds. |
| AuthProperties.LoginFails | client/src/context/auth/index.js:64-87 | Any outcome other than 200 leaves the session, cookie and redirects unchanged. A resolved non-200 returns `''`. A 400 error returns its `errorMessage` verbatim. Any other error status returns `I'm not sure what happened...`. An error without a response, and only that, throws. |
| AuthProperties.RegisterSucceeds | client/src/context/auth/index.js:115-127 | On a 200 response register returns `''` and gives `{res.data.user, true}`. It makes exactly one redirect, to `/`, and never writes the cookie. |
| AuthProperties.RegisterDispatchesBeforeRedirect | client/src/context/auth/index.js:117-125 | On success the effects are the API call, then the session update, then the redirect. |
| AuthProperties.RegisterFails | client/src/context/auth/index.js:115-135 | Same failure policy as login, with the fallback `Something is wrong with the server...`. |
| AuthProperties.LogoutResets | client/src/context/auth/index.js:89-95 | From any state, logout gives `{null, false}` and clears the cookie with one 2-day write. It makes one API call and one redirect to `/`. |
| AuthProperties.RegisterThenLogoutIsInitial | client/src/context/auth/index.js:17-20 | A successful registration followed by a logout returns the session to the provider's initial state. |
| AuthProperties.GuestIsLocal | client/src/context/auth/index.js:137-145 | Guest login gives `{null, true}`. It makes no API call, no cookie write and no redirect. |
| AuthProperties.GetLoggedInPolicy | client/src/context/auth/index.js:97-113 | getLoggedIn never redirects and never writes the cookie. A 200 response gives `{res.data.user, true}` whatever the server's `loggedIn` is. Every other outcome, thrown or not, leaves the session unchanged. |
| AuthProperties.StartupFetchesIffCookie | client/src/context/auth/index.js:23-29 | The mount effect adds exactly one getLoggedIn call if the cookie is truthy and none otherwise. It never redirects. With a falsy cookie it does nothing at all. |
| AuthProperties.NoFetchAfterLogout | client/src/context/auth/index.js:23-29 | After a logout the cookie is falsy, so a later mount makes no call and stays `{null, false}`. |
| AuthProperties.ApplyKeepsConsistent | client/src/context/auth/index.js:64-145 | Each of the five operations keeps "not logged in implies no user". |
| AuthProperties.RunKeepsConsistent | client/src/context/auth/index.js:64-145 | Over any sequence of operations, "not logged in" never comes with a user. |
| AuthProperties.ApplyRedirects | client/src/context/auth/index.js:64-145 | An operation redirects, once and to `/`, exactly when it is a successful login, a successful registration or a logout. |
| AuthProperties.RunRedirects | client/src/context/auth/index.js:64-145 | Over a sequence of operations, the redirects added are one per redirecting operation, and all of them go to `/`. |
| AuthProperties.BadCredentialsScenario | client/src/context/auth/index.js:81-84 | A 400 `Invalid credentials` error returns that message, makes no redirect and leaves the session anonymous. |
| AuthProperties.RememberedStartupScenario | client/src/context/auth/index.js:23-29 | With the cookie set, startup makes exactly one call and logs in the returned user. |
| AuthContext.Provider.constructor | client/src/context/auth/index.js:17-20 | The provider starts with `{null, false}`, the stored cookie and no effects. |
| AuthContext.Provider.StoreCookie | client/src/context/auth/index.js:47 | Writes the cookie as `Auth.WriteCookie` does. |
| AuthContext.Provider.HistoryPush | client/src/context/auth/index.js:68 | Records the redirect as `Auth.Push` does. |
| AuthContext.Provider.CallApi | client/src/context/auth/index.js:66 | Records the API call as `Auth.Call` does. |
| AuthContext.Provider.UpdateAuth | client/src/context/auth/index.js:35-38 | Overwrites `user` and `loggedIn` as `Auth.SetAuthTo` does. |
| AuthContext.Provider.Dispatch | client/src/context/auth/index.js:31-62 | The reducer's switch. The new state is that of `Auth.Dispatch`. |
| AuthContext.Provider.LoginUser | client/src/context/auth/index.js:64-87 | The new state and the result are those of `Auth.LoginUser`. The session invariant is kept. |
| AuthContext.Provider.LogoutUser | client/src/context/auth/index.js:89-95 | The new state is that of `Auth.LogoutUser`. The invariant holds afterwards from any state. |
| AuthContext.Provider.GetLoggedIn | client/src/context/auth/index.js:97-113 | The new state is that of `Auth.GetLoggedIn`. The invariant is kept. |
| AuthContext.Provider.RegisterUser | client/src/context/auth/index.js:115-135 | The new state and the result are those of `Auth.RegisterUser`. The invariant is kept. |
| AuthContext.Provider.LoginAsGuest | client/src/context/auth/index.js:137-145 | The new state is that of `Auth.LoginAsGuest`: logged in with no user. |
| AuthContext.Provider.Mount | client/src/context/auth/index.js:23-29 | The new state is that of `Auth.Startup`. The invariant is kept. |

## Left out

- The remote API module, the router's `useHistory` and the cookie utilities are not part of this model. The API appears as an input outcome. The router and the cookie store appear as effects in the trace, and "truthy cookie" is read as "not the empty string". The model records `setCookie('loggedIn', true, 2)` as storing the text "true"; how the cookie utility actually stores the value is not part of this model.
- The React mechanics (`createContext`, `useState`, `useEffect`, the provider's JSX, attaching methods to `auth`) are left out. That React runs the mount effect only once is React's guarantee. `Provider.Mount` models one run of it.
- Asynchrony: each operation is one atomic step. Interleavings are not modelled, for example a slow `getLoggedIn` resolving after a `logoutUser`.
- `console.log` output is left out. So the null-user throw after `getLoggedIn`'s dispatch cannot be told apart from a normal success.
- A rejection of `logoutUser`'s un-awaited API call is left out. It would surface only as an unhandled promise rejection and changes none of the modelled state.
- The components (`NavigationBar.js`, `HomeScreen.js`) and the styling constants (`CamposConsts.js`) are left out. They are view code with no session logic.
