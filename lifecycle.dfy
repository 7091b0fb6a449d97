/**
 * Properties that connect several parts of the core: what a reload sees
 * after `login` or `logout`, what the request hook attaches afterwards, and
 * that the guard does not notice either mutation.
 */
module Lifecycle {
  import opened Wrappers
  import opened Browser
  import opened UserCodec
  import opened Store
  import opened AppState
  import opened Router
  import opened Http
  import Mutations
  import SessionService

  /** A reload after `login` rehydrates the payload, and the token itself as the flag. */
  lemma RehydrateAfterLogin(w: World, p: Payload)
    ensures InitialState(Mutations.Login(w, p).storage)
         == Ok(StoreState(DefaultToast, Profile(p), if p.accessToken != "" then TokenText(p.accessToken) else Bool(false)))
    ensures Truthy(InitialState(Mutations.Login(w, p).storage).value.authenticated) <==> p.accessToken != ""
  {
  }

  /** A reload after `logout` starts logged out with the empty user. */
  lemma RehydrateAfterLogout(w: World, apiUrl: string)
    ensures InitialState(Mutations.Logout(w, apiUrl).storage) == Ok(StoreState(DefaultToast, Empty, Bool(false)))
  {
  }

  /** A reload after an expired `checkSession` also starts logged out. */
  lemma RehydrateAfterExpiry(w: World, now: int, apiUrl: string)
    requires SessionService.Expired(w.storage, now)
    ensures InitialState(SessionService.CheckSession(w, now, apiUrl).storage) == Ok(StoreState(DefaultToast, Empty, Bool(false)))
  {
  }

  /** After `login` with a non-empty token every request carries it as a bearer credential. */
  lemma BearerAfterLogin(w: World, p: Payload, headers: Headers)
    requires p.accessToken != ""
    ensures AttachBearer(Mutations.Login(w, p).storage, headers)[AuthorizationHeader] == "Bearer " + p.accessToken
  {
  }

  /** After `logout`, or an expired check, requests go out with the headers they had. */
  lemma NoBearerAfterLogout(w: World, now: int, apiUrl: string, headers: Headers)
    ensures AttachBearer(Mutations.Logout(w, apiUrl).storage, headers) == headers
    ensures SessionService.Expired(w.storage, now) ==>
              AttachBearer(SessionService.CheckSession(w, now, apiUrl).storage, headers) == headers
  {
  }

  /** The guard reads `sessionEndIn`, which neither mutation touches, so its decision is unchanged by them. */
  lemma GuardIgnoresMutations(w: World, p: Payload, apiUrl: string, to: Route)
    ensures Guard(to, Mutations.Login(w, p).storage) == Guard(to, w.storage)
    ensures Guard(to, Mutations.Logout(w, apiUrl).storage) == Guard(to, w.storage)
  {
  }

  /** Every navigation the core pushes is to a route the guard lets through. */
  lemma LoginNavigationAllowed(storage: Storage)
    ensures Lookup(Routes, LoginRoute).Some?
    ensures Guard(Lookup(Routes, LoginRoute).value, storage) == Proceed
  {
    AuthRoutes();
  }

  /** One event the core reacts to after start-up. */
  datatype Step =
    | ToastStep(toast: Toast)
    | LoginStep(payload: Payload)
    | LogoutStep
    | CheckStep(now: int)
    | ResponseFailure(error: HttpError)

  function Apply(w: World, step: Step, apiUrl: string): World
  {
    match step
    case ToastStep(t) => Mutations.SetToastMessage(w, t)
    case LoginStep(p) => Mutations.Login(w, p)
    case LogoutStep => Mutations.Logout(w, apiUrl)
    case CheckStep(now) => SessionService.CheckSession(w, now, apiUrl)
    case ResponseFailure(e) => w.(effects := w.effects + OnResponseError(e).effects)
  }

  function Run(w: World, steps: seq<Step>, apiUrl: string): World
    decreases |steps|
  {
    if steps == [] then w else Run(Apply(w, steps[0], apiUrl), steps[1..], apiUrl)
  }

  /** The base URL is the configured API URL and the `X-Requested-With` header is set. */
  predicate DefaultsConfigured(d: HttpDefaults, apiUrl: string)
  {
    d.baseURL == apiUrl && RequestedWithHeader in d.common && d.common[RequestedWithHeader] == HeaderText("XMLHttpRequest")
  }

  lemma StepKeepsInvariants(w: World, step: Step, apiUrl: string)
    requires Consistent(w) && DefaultsConfigured(w.defaults, apiUrl)
    ensures Consistent(Apply(w, step, apiUrl)) && DefaultsConfigured(Apply(w, step, apiUrl).defaults, apiUrl)
  {
  }

  /**
   * In every state reachable from start-up, `authenticated` agrees with the
   * stored token, the base URL is the configured API URL and the
   * `X-Requested-With` default set at load time is still in place.
   */
  lemma {:induction false} ReachableStatesKeepInvariants(apiUrl: string, storage: Storage, steps: seq<Step>)
    requires Boot(apiUrl, storage).Ok?
    ensures Consistent(Run(Boot(apiUrl, storage).value, steps, apiUrl))
    ensures DefaultsConfigured(Run(Boot(apiUrl, storage).value, steps, apiUrl).defaults, apiUrl)
  {
    RunKeepsInvariants(Boot(apiUrl, storage).value, steps, apiUrl);
  }

  lemma {:induction false} RunKeepsInvariants(w: World, steps: seq<Step>, apiUrl: string)
    requires Consistent(w) && DefaultsConfigured(w.defaults, apiUrl)
    ensures Consistent(Run(w, steps, apiUrl)) && DefaultsConfigured(Run(w, steps, apiUrl).defaults, apiUrl)
    decreases |steps|
  {
    if steps != [] {
      StepKeepsInvariants(w, steps[0], apiUrl);
      RunKeepsInvariants(Apply(w, steps[0], apiUrl), steps[1..], apiUrl);
    }
  }
}
