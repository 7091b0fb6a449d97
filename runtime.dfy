/**
 * The application's global singletons held in one object: `localStorage`,
 * the store's state fields, the axios defaults and the navigation log. Each
 * method is the imperative counterpart of one step function and is proved
 * to produce exactly that step's snapshot.
 */
module Runtime {
  import opened Wrappers
  import opened Browser
  import opened JsNumber
  import opened UserCodec
  import opened Store
  import opened AppState
  import opened Router
  import opened Http
  import Mutations
  import SessionService

  /** An outgoing request config whose headers the request hook edits in place. */
  class RequestConfig {
    var headers: Headers

    constructor (headers: Headers)
      ensures this.headers == headers
    {
      this.headers := headers;
    }
  }

  class Session {
    /** `import.meta.env.VITE_API_URL`. */
    const apiUrl: string

    var storage: Storage
    var toastMessage: Toast
    var user: UserValue
    var authenticated: AuthValue
    var baseURL: string
    var commonHeaders: map<string, Header>
    var effects: seq<Effect>

    function Snapshot(): World
      reads this
    {
      World(storage, StoreState(toastMessage, user, authenticated), HttpDefaults(baseURL, commonHeaders), effects)
    }

    ghost predicate Valid()
      reads this
    {
      Consistent(Snapshot())
    }

    /** Process start: axios defaults assigned at module load, then the store's `state()`. */
    constructor (apiUrl: string, storage: Storage)
      requires Boot(apiUrl, storage).Ok?
      ensures Valid() && this.apiUrl == apiUrl
      ensures Snapshot() == Boot(apiUrl, storage).value
    {
      this.apiUrl := apiUrl;
      baseURL := apiUrl;
      commonHeaders := map[RequestedWithHeader := HeaderText("XMLHttpRequest")];
      this.storage := storage;
      toastMessage := DefaultToast;
      var u := InitialUser(storage);
      user := u.value;
      authenticated := InitialAuthenticated(storage);
      effects := [];
    }

    /** `router.push({ name })`. */
    method Push(name: string)
      modifies this`effects
      ensures effects == old(effects) + [RouterPush(name)]
    {
      effects := effects + [RouterPush(name)];
    }

    method SetToastMessage(t: Toast)
      requires Valid()
      modifies this
      ensures Valid() && Snapshot() == Mutations.SetToastMessage(old(Snapshot()), t)
    {
      toastMessage := t;
    }

    method Login(p: Payload)
      requires Valid()
      modifies this
      ensures Valid() && Snapshot() == Mutations.Login(old(Snapshot()), p)
    {
      storage := storage[AccessTokenKey := p.accessToken];
      storage := storage[UserKey := Stringify(Profile(p))];
      authenticated := Bool(true);
      user := Profile(p);
    }

    method Logout()
      requires Valid()
      modifies this
      ensures Valid() && Snapshot() == Mutations.Logout(old(Snapshot()), apiUrl)
    {
      storage := storage - {AccessTokenKey};
      storage := storage - {UserKey};
      authenticated := Bool(false);
      user := Empty;
      commonHeaders := commonHeaders[AuthorizationHeader := NullHeader];
      baseURL := apiUrl;
      Push(LoginRoute);
    }

    /** `checkSession`, with the current time passed in. */
    method CheckSession(now: int)
      requires Valid()
      modifies this
      ensures Valid() && Snapshot() == SessionService.CheckSession(old(Snapshot()), now, apiUrl)
    {
      var sessionEnd := GetItem(storage, SessionEndKey);
      var expired := true;
      if sessionEnd.Some? && sessionEnd.value != "" {
        var n := Number(sessionEnd.value);
        expired := n.Finite? && now > n.value;
      }
      if expired {
        Logout();
        storage := storage - {AccessTokenKey};
        Push(LoginRoute);
      }
    }

    /** `beforeEach` for a navigation to `to`; reads storage and changes nothing. */
    method BeforeEach(to: Route) returns (d: Decision)
      ensures d == Guard(to, storage)
      ensures d == Redirect(LoginRoute) <==> to.requiresAuth && !HasNonEmpty(storage, SessionEndKey)
      ensures d.Proceed? || d == Redirect(LoginRoute)
    {
      var isAuthenticated := GetItem(storage, SessionEndKey);
      if to.requiresAuth && !(isAuthenticated.Some? && isAuthenticated.value != "") {
        d := Redirect(LoginRoute);
      } else {
        d := Proceed;
      }
    }

    /** The request hook: edits the config's headers in place and hands the same config on. */
    method InterceptRequest(config: RequestConfig) returns (c: RequestConfig)
      modifies config
      ensures c == config
      ensures config.headers == AttachBearer(storage, old(config.headers))
    {
      var token := GetItem(storage, AccessTokenKey);
      if token.Some? && token.value != "" {
        config.headers := config.headers[AuthorizationHeader := "Bearer " + token.value];
      }
      c := config;
    }

    /** Both response-error hooks; returns what the request's caller is rejected with. */
    method ResponseError(e: HttpError) returns (r: JsError)
      requires Valid()
      modifies this
      ensures Valid()
      ensures Snapshot() == old(Snapshot()).(effects := old(effects) + OnResponseError(e).effects)
      ensures r == OnResponseError(e).rejection
    {
      if HasStatus(e, 401) {
        effects := effects + [SessionExpiredRequested];
      }
      if e.response.Some? && e.response.value.status == 403 {
        effects := effects + [LocationAssigned(AccessDeniedPath)];
      }
      r := Axios(e);
    }
  }
}
