/**
 * A snapshot of everything the session core reads and writes: browser
 * storage, the store state, the axios defaults and the navigation log.
 */
module AppState {
  import opened Wrappers
  import opened Browser
  import opened Store

  /** A default header value: the literal null or a string. */
  datatype Header = NullHeader | HeaderText(text: string)

  const RequestedWithHeader: string := "X-Requested-With"

  /** `axios.defaults.baseURL` and `axios.defaults.headers.common`. */
  datatype HttpDefaults = HttpDefaults(baseURL: string, common: map<string, Header>)

  datatype World = World(storage: Storage, store: StoreState, defaults: HttpDefaults, effects: seq<Effect>)

  /** The defaults `axios.js` assigns when it is loaded. */
  function InitialDefaults(apiUrl: string): HttpDefaults
  {
    HttpDefaults(apiUrl, map[RequestedWithHeader := HeaderText("XMLHttpRequest")])
  }

  /**
   * `authenticated` agrees with the stored token: a truthy flag has a token
   * saved, a falsy flag has none or only the empty string.
   */
  predicate Consistent(w: World)
  {
    && (Truthy(w.store.authenticated) ==> AccessTokenKey in w.storage)
    && (!Truthy(w.store.authenticated) ==> !HasNonEmpty(w.storage, AccessTokenKey))
  }

  /** Process start: the axios module's defaults and the store's rehydrated state. */
  function Boot(apiUrl: string, storage: Storage): (r: Result<World, BootError>)
    ensures r.Ok? <==> InitialState(storage).Ok?
    ensures r.Ok? ==> r.value.storage == storage && r.value.store == InitialState(storage).value
    ensures r.Ok? ==> r.value.defaults == InitialDefaults(apiUrl) && r.value.effects == []
    ensures r.Ok? ==> Consistent(r.value)
  {
    match InitialState(storage)
    case Err(e) => Err(e)
    case Ok(st) => Ok(World(storage, st, InitialDefaults(apiUrl), []))
  }
}
