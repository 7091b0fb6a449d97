# Session and authentication state machine of the CMS front end

This project models the session core of a Vue admin front end: the state in
browser storage (`access_token`, `user`, `sessionEndIn`), the store state
(`authenticated`, `user`, `toastMessage`), the axios defaults
(`Authorization` header, `baseURL`) and a log of what the core makes the browser
do (router pushes, assignments to `window.location.href`, requests for the
session-expired handler). It models the transitions over that state:

- the store mutations `setToastMessage`, `login` and `logout`;
- the rehydration of the store state from storage at start-up;
- `checkSession(now)`;
- the route table and the `beforeEach` guard;
- the request interceptor that attaches the bearer token;
- the 401 and 403 response hooks.

It has two layers:

- A pure layer. `AppState.World` is a snapshot of all this state. Modules
  `Store`, `Mutations`, `SessionService`, `Router` and `Http` give one step
  function per source operation, and the lemmas about them carry the
  properties.
- An imperative layer. `Runtime.Session` holds the same state as mutable
  fields. Each method updates them in place and is proved to yield exactly
  the snapshot of its step function. `ResponseError` is the one method that
  departs from the code: it uses the corrected 403 hook (see Findings). The class
  invariant `Valid()` is `AppState.Consistent`: a truthy `authenticated` has a
  token stored, and a falsy one has none, or only the empty string.

Time is an integer parameter (`now`, epoch milliseconds). The user blob that
`login` stores is written by `UserCodec.Stringify`, a JSON-shaped serialiser
with string-valued fields. `UserCodec.Parse` reads it back, and the model
proves the round trip `Parse(Stringify(u)) == ParsedUser(u)` rather than
assuming it.

The model keeps these behaviours of the code:

- `logout` does not remove `sessionEndIn`.
- `logout` pushes `login` every time it is called, with no "already on login"
  check and no "expired" marker. So N logouts give N pushes, and an expired
  `checkSession` pushes `login` twice.
- The guard reads `sessionEndIn`, not the token.
- The 401 hook does not log out. It only asks for `handleSessionExpired` from
  `src/service/session.js`. That file exports only `checkSession`, so the model
  records just the request (`SessionExpiredRequested`).

The model corrects the code in one place. `Http.OnResponseError` and
`Runtime.Session.ResponseError` use the corrected 403 hook described under
Findings. The code as written is `Http.OnResponseErrorAsWritten`: for an error
with no response it rejects with a TypeError, while the corrected chain
re-rejects the error itself. Other differences from the code are listed under
"Left out": how the user blob is read at start-up (`Store.InitialUser`), and
which strings JavaScript's `Number` reads as numbers.

## Model

| member | source | states |
|---|---|---|
| `JsNumber.Number` | src/service/session.js:7 | `Number(sessionEnd)` on optional-sign-and-digits strings; every other string is NaN; no contract of its own; stated by `JsNumber.NumberOfDecimal` and `SessionService.NonNumericNeverExpires` |
| `JsNumber.NumberOfDecimal` | src/service/session.js:7 | `Number` applied to the decimal string of a timestamp t gives t, so a stored timestamp compares as that number |
| `UserCodec.Stringify` | src/store/mutations.js:13 | `JSON.stringify(payload)`; no contract of its own; stated by `UserCodec.ParseStringify` and `UserCodec.StringifyInjective` |
| `UserCodec.Parse` | src/store/index.js:16 | `JSON.parse` of the stored blob; no contract of its own; stated by `UserCodec.ParseStringify` and `Store.InitialUser` |
| `UserCodec.ParseStringify` | src/store/index.js:16 | parsing the blob `login` stores gives back exactly the user value it serialised |
| `UserCodec.StringifyInjective` | src/store/mutations.js:13 | two different user values never serialise to the same blob |
| `Store.InitialUser` | src/store/index.js:16 | a missing blob or a falsy JSON value (`null`, `false`, `0`, `""`) rehydrates as `{}`; the blob `login` stores for any user rehydrates as that user |
| `Store.InitialAuthenticated` | src/store/index.js:17 | the flag is truthy exactly when a non-empty token is stored; it is then the token string itself, and otherwise `false` |
| `Store.InitialState` | src/store/index.js:8-18 | start-up fails exactly when the stored user blob is one the model does not read; otherwise the toast is the default, `authenticated` is truthy exactly when a non-empty token is stored (and `false` otherwise), and a stored serialised user, or no blob, gives that user, or `{}` |
| `AppState.Boot` | src/store/index.js:7-18 | start-up keeps storage as it is, uses the rehydrated state and the initial defaults, and starts in a consistent state |
| `Mutations.SetToastMessage` | src/store/mutations.js:5-7 | the `setToastMessage` mutation; no contract of its own; stated by `Mutations.SetToastMessageChangesOnlyToast` |
| `Mutations.Login` | src/store/mutations.js:9-17 | the `login` mutation; no contract of its own; stated by `Mutations.LoginWrites`, `Mutations.SessionEndUntouched` and `Lifecycle.RehydrateAfterLogin` |
| `Mutations.Logout` | src/store/mutations.js:19-36 | the `logout` mutation; no contract of its own; stated by `Mutations.LogoutClears`, `Mutations.LogoutIdempotent`, `Mutations.LogoutRepeated` and `Lifecycle.RehydrateAfterLogout` |
| `Mutations.SetToastMessageChangesOnlyToast` | src/store/mutations.js:5-7 | `setToastMessage` sets the toast and changes nothing else |
| `Mutations.LoginWrites` | src/store/mutations.js:9-17 | `login` stores the token under `access_token` and the serialised payload under `user`, and adds no other key; it sets `authenticated = true` and `user = payload`; the toast, defaults and navigation log are unchanged |
| `Mutations.LogoutClears` | src/store/mutations.js:19-36 | after `logout`: no token and no user blob, all other keys kept; `authenticated = false`, `user = {}`; Authorization default is null, other defaults kept and no other header key added; `baseURL` is the API URL; exactly one push of `login` |
| `Mutations.LogoutIdempotent` | src/store/mutations.js:19-36 | a second `logout` leaves storage, state and defaults as the first did, and adds one more `login` push |
| `Mutations.LogoutRepeated` | src/store/mutations.js:35 | n logouts (n > 0) leave the state of one logout, and the log grows by exactly n pushes of `login` |
| `Mutations.SessionEndUntouched` | src/store/mutations.js:9-36 | neither `login` nor `logout` changes `sessionEndIn` |
| `Mutations.MutationsKeepConsistent` | src/store/mutations.js:5-36 | every mutation keeps `authenticated` in agreement with the stored token |
| `SessionService.Expired` | src/service/session.js:6-7 | the expiry condition; no contract of its own; stated by `SessionService.MissingSessionEndExpires`, `SessionService.ExpiryIsStrict` and `SessionService.NonNumericNeverExpires` |
| `SessionService.CheckSession` | src/service/session.js:5-13 | `checkSession`; no contract of its own; stated by `SessionService.LiveSessionUnchanged`, `SessionService.ExpiredSessionLogsOut` and `SessionService.ExpiryIsSticky` |
| `SessionService.MissingSessionEndExpires` | src/service/session.js:6-7 | a missing or empty `sessionEndIn` counts as expired |
| `SessionService.ExpiryIsStrict` | src/service/session.js:7 | with timestamp t stored, the session is expired exactly when now > t; t itself is not expired, t + 1 is |
| `SessionService.NonNumericNeverExpires` | src/service/session.js:7 | a stored value that is not a number never expires (the NaN comparison is false) |
| `SessionService.LiveSessionUnchanged` | src/service/session.js:7-12 | when the session is not expired, `checkSession` changes nothing at all |
| `SessionService.ExpiredSessionLogsOut` | src/service/session.js:7-12 | on expiry: token and user blob removed and nothing else; store logged out; defaults reset as by `logout`; exactly two pushes of `login` |
| `SessionService.CheckSessionKeepsSessionEnd` | src/service/session.js:5-13 | `checkSession` never changes `sessionEndIn` |
| `SessionService.ExpiryIsSticky` | src/service/session.js:5-13 | once expired, a check at any later time logs out again, so two checks push `login` four times |
| `SessionService.CheckSessionKeepsConsistent` | src/service/session.js:5-13 | `checkSession` keeps `authenticated` in agreement with the stored token |
| `Router.Guard` | src/router/index.js:147-154 | the `beforeEach` decision; no contract of its own; stated by `Router.GuardRedirectsExactly` and `Router.GuardReadsOnlySessionEnd` |
| `Router.Routes` | src/router/index.js:6-144 | the route table; no contract of its own; stated by `Router.GuardAllowsEveryRoute`, `Router.RouteNamesUnique` and `Router.AuthRoutes` |
| `Router.Lookup` | src/router/index.js:6-144 | resolving a name gives a record of the table with that name, or none when no record has it |
| `Router.GuardRedirectsExactly` | src/router/index.js:147-154 | the guard redirects to `login` exactly when the target requires auth and `sessionEndIn` is missing or empty; otherwise it proceeds |
| `Router.GuardReadsOnlySessionEnd` | src/router/index.js:148 | two storages with the same `sessionEndIn` get the same decision, whatever their tokens |
| `Router.GuardAllowsEveryRoute` | src/router/index.js:6-144 | no record declares `requiresAuth`, so every record in the table proceeds |
| `Router.RouteNamesUnique` | src/router/index.js:13-142 | no two records share a name |
| `Router.LookupFinds` | src/router/index.js:6-144 | when names are unique, looking up a record's name finds that record |
| `Router.AuthRoutes` | src/router/index.js:129-138 | `login` resolves to `/auth/login` and `accessDenied` to `/auth/access` |
| `Http.AttachBearer` | src/axios.js:10-18 | the request hook's header edit; no contract of its own; stated by `Http.BearerAttached`, `Http.NoTokenNoHeader` and `Http.OtherHeadersKept` |
| `Http.OnUnauthorized` | src/axios.js:25-33 | the 401 hook; no contract of its own; stated by `Http.UnauthorizedReRejects` and `Http.ResponseErrorRouting` |
| `Http.BearerAttached` | src/axios.js:11-15 | with a non-empty stored token T, the request carries `Authorization: Bearer T` and gains no other header |
| `Http.NoTokenNoHeader` | src/axios.js:13-17 | with no token, or an empty one, the headers are returned unchanged |
| `Http.OtherHeadersKept` | src/axios.js:10-18 | the request hook changes no header but `Authorization` and adds no other |
| `Http.OnForbiddenAsWritten` | src/axios.js:39-45 | the 403 hook as written; no contract of its own; stated by `Http.NoResponseAsWritten` |
| `Http.OnForbidden` | src/axios.js:39-45 | the corrected 403 hook; no contract of its own; stated by `Http.ForbiddenAlwaysReRejects` |
| `Http.OnResponseErrorAsWritten` | src/axios.js:23-46 | both hooks as written; no contract of its own; stated by `Http.ResponseChainAsWritten` |
| `Http.OnResponseError` | src/axios.js:23-46 | both hooks with the corrected 403 hook; no contract of its own; stated by `Http.ResponseErrorRouting` |
| `Http.NoResponseAsWritten` | src/axios.js:40 | as written, an error with no response makes the 403 hook reject with a TypeError instead of the original error |
| `Http.ForbiddenAlwaysReRejects` | src/axios.js:37-46 | the guarded 403 hook always re-rejects the original error; it has no effect when there is no response, and behaves as written whenever there is one |
| `Http.UnauthorizedReRejects` | src/axios.js:26-32 | the 401 hook re-rejects the error it received, for every input |
| `Http.ResponseChainAsWritten` | src/axios.js:23-46 | as written, the pair rejects an error with no response with a TypeError and no effect; with a response it behaves exactly as the corrected pair |
| `Http.ResponseErrorRouting` | src/axios.js:23-46 | over both hooks, 401 only requests the session-expired handler, 403 only assigns `/auth/access`, another status has no effect, and the same error is always re-rejected |
| `Lifecycle.RehydrateAfterLogin` | src/store/index.js:16-17 | a reload after `login` rehydrates the payload as `user`; the flag is the token, and it is truthy exactly when the token is non-empty |
| `Lifecycle.RehydrateAfterLogout` | src/store/index.js:16-17 | a reload after `logout` gives `user = {}` and `authenticated = false` |
| `Lifecycle.RehydrateAfterExpiry` | src/service/session.js:7-12 | a reload after an expired check also starts logged out |
| `Lifecycle.BearerAfterLogin` | src/axios.js:11-15 | after `login` with a non-empty token, every request carries that token as its bearer header |
| `Lifecycle.NoBearerAfterLogout` | src/axios.js:13-17 | after `logout`, or an expired check, requests keep the headers they had |
| `Lifecycle.GuardIgnoresMutations` | src/router/index.js:148 | `login` and `logout` do not change any guard decision |
| `Lifecycle.LoginNavigationAllowed` | src/router/index.js:129-133 | the `login` route the core pushes exists, and the guard lets it through |
| `Lifecycle.StepKeepsInvariants` | src/store/mutations.js:5-36 | each mutation, a check and a response failure keep the flag in agreement with the token, the base URL at the API URL and the `X-Requested-With` default in place |
| `Lifecycle.RunKeepsInvariants` | src/store/mutations.js:5-36 | any sequence of the five step kinds keeps both invariants: mutations (this file), `checkSession` (src/service/session.js:5-13) and response failures (src/axios.js:23-46), starting from the defaults of src/axios.js:3-6 |
| `Lifecycle.ReachableStatesKeepInvariants` | src/axios.js:3-6 | over every sequence of mutations (src/store/mutations.js:5-36), checks (src/service/session.js:5-13) and response failures (src/axios.js:23-46): in every state reachable from start-up, `authenticated` agrees with the stored token, `baseURL` is the configured API URL, and the `X-Requested-With: XMLHttpRequest` default set at module load is still there |
| `Runtime.Session.constructor` | src/store/index.js:8-18 | start-up builds the snapshot `Boot` describes, and the invariant holds |
| `Runtime.Session.Push` | src/store/mutations.js:35 | `router.push` appends one push of the named route to the log |
| `Runtime.Session.SetToastMessage` | src/store/mutations.js:5-7 | the in-place mutation gives the `setToastMessage` snapshot |
| `Runtime.Session.Login` | src/store/mutations.js:9-17 | the in-place mutation gives the `login` snapshot and keeps the invariant |
| `Runtime.Session.Logout` | src/store/mutations.js:19-36 | the in-place mutation gives the `logout` snapshot and keeps the invariant |
| `Runtime.Session.CheckSession` | src/service/session.js:5-13 | the commit, removal and push sequence gives the `checkSession` snapshot |
| `Runtime.Session.BeforeEach` | src/router/index.js:147-154 | the guard returns the redirect to `login` exactly in the redirect case, and otherwise proceeds |
| `Runtime.Session.InterceptRequest` | src/axios.js:9-20 | the hook edits the config's headers in place as `AttachBearer` says, and returns the same config |
| `Runtime.Session.ResponseError` | src/axios.js:23-46 | the hooks only append their effects to the log, leaving storage, the store and the defaults alone, and reject as the pair does |

## Findings

| source | as written | input that shows it | evidently intended | confidence | as-written member | corrected member |
|---|---|---|---|---|---|---|
| src/axios.js:40 | the 403 hook reads `error.response.status` without checking that `response` exists | an error with no response, e.g. a network failure or timeout: the hook throws, so the caller gets a TypeError instead of its own error | as in the 401 hook at line 26, a missing response is no match, and the original error is re-rejected | not executed; the sibling hook's optional chaining shows the intent | `Http.NoResponseAsWritten` (about `Http.OnForbiddenAsWritten`) and `Http.ResponseChainAsWritten` (about `Http.OnResponseErrorAsWritten`) | `Http.ForbiddenAlwaysReRejects` (about `Http.OnForbidden`, which `Http.OnResponseError` and `Runtime.Session.ResponseError` use) |

## Left out

- The periodic expiry monitor and its start/stop. No such timer exists in the modelled files; `checkSession` is modelled as one call.
- `handleSessionExpired`: src/service/session.js does not define or export it. The 401 hook's effect is the abstract `SessionExpiredRequested` event. The dynamic `import()` and the rejection it ends in are not modelled.
- Time: `new Date().getTime()` is the `now` parameter.
- `JsNumber.Number`: JavaScript's `Number` reads more strings as numbers than this model does. Whitespace trimming, fractions, exponents, hexadecimal and `Infinity` all read as NaN here. Only an optional sign followed by digits is a number. So a stored `sessionEndIn` such as `"1.5"` never expires in the model, while the application expires it once `now > 1.5`.
- JSON: `JSON.stringify`/`JSON.parse` of the user blob is `UserCodec`, with string-valued user fields. Control characters are not escaped.
- Store.InitialUser: reads only falsy JSON values (`null`, `false`, `0`, `""`), `{}` and serialised payloads. The source boots on any valid JSON under `user`. For example, `{"name":"x"}` becomes the store's user, and other falsy values such as `-0` become `{}`. The source fails only on a syntax error. The model treats every other text as unreadable, and `Boot` then does not start.
- Payload shapes: a payload without `token` makes `login` throw at src/store/mutations.js:11. A payload with `token` but no `access_token` stores the string "undefined" and completes. Neither case is modelled, because `Payload` always carries a string token.
- `window.location.href`: the assignment is recorded as a path. The full page reload it causes is not modelled.
- Router internals: pushes are recorded as requested. Name resolution of the recorded push, the asynchronous guard run on it, `from` and `next` are not modelled. `Router.Guard` is the guard's decision, and `Router.Lookup` is name resolution.
- Route table: lazy component imports and the layout component are dropped. Meta merging from the nameless `/` layout route is not modelled, since that route declares no meta.
- Vuex and axios mechanics: `createStore`, `commit` and the interceptor chain are modelled as direct calls.
- Pass-through handlers: the request-error handler (`Promise.reject(error)`) and both response-success handlers (`response => response`) are identities and are not modelled.
- Request defaults: how axios merges `defaults.headers.common` into each request's headers is not modelled.
- Storage exceptions (quota, disabled storage) and concurrent writes from other tabs are not modelled.
- Upload glue: src/service/CloudinaryUploadAdapter.js and src/service/CustomUploadAdapterPlugin.js are network upload glue, with no session state, and are not part of this model.
