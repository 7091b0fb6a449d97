/**
 * The in-memory store state (`toastMessage`, `user`, `authenticated`) and
 * the store's `state()` factory, which rebuilds it from storage when the
 * application starts.
 */
module Store {
  import opened Wrappers
  import opened Browser
  import opened UserCodec

  datatype Toast = Toast(severity: string, summary: string, detail: string, life: int)

  /** Toast shown before any `setToastMessage`: empty texts, 3000 ms life. */
  const DefaultToast: Toast := Toast("", "", "", 3000)

  /**
   * `authenticated` is a JavaScript value, not always a boolean: `login` sets
   * `true`, `logout` sets `false`, but rehydration stores the token string
   * itself when one is saved.
   */
  datatype AuthValue = Bool(b: bool) | TokenText(text: string)

  predicate Truthy(a: AuthValue)
  {
    match a
    case Bool(b) => b
    case TokenText(t) => t != ""
  }

  datatype StoreState = StoreState(toastMessage: Toast, user: UserValue, authenticated: AuthValue)

  /**
   * The stored `user` blob is not one the model reads: not a falsy JSON value,
   * not `{}` and not a serialised payload. `JSON.parse` in the application
   * accepts any valid JSON here and throws only on a syntax error; `Parse`
   * reads only the forms above, so `InitialUser` fails on every other text.
   */
  datatype BootError = MalformedUser(blob: string)

  /** `JSON.parse(localStorage.getItem('user')) || {}`. */
  function InitialUser(s: Storage): (r: Result<UserValue, BootError>)
    ensures UserKey !in s ==> r == Ok(Empty)
    ensures forall u :: UserKey in s && s[UserKey] == Stringify(u) ==> r == Ok(u)
    ensures UserKey in s && IsFalsyJson(s[UserKey]) ==> r == Ok(Empty)
  {
    ParsesEveryStringified();
    match GetItem(s, UserKey)
    case None => Ok(Empty)   // JSON.parse(null) is null, and null || {} is {}
    case Some(blob) =>
      match Parse(blob)
      case ParsedFalsy => Ok(Empty)
      case ParsedUser(u) => Ok(u)
      case Malformed => Err(MalformedUser(blob))
  }

  /** `localStorage.getItem('access_token') || false`. */
  function InitialAuthenticated(s: Storage): (a: AuthValue)
    ensures Truthy(a) <==> HasNonEmpty(s, AccessTokenKey)
    ensures Truthy(a) ==> a == TokenText(s[AccessTokenKey])
    ensures !Truthy(a) ==> a == Bool(false)
  {
    match GetItem(s, AccessTokenKey)
    case Some(t) => if t != "" then TokenText(t) else Bool(false)
    case None => Bool(false)
  }

  /** The store's `state()`: default toast, user and flag rebuilt from storage. */
  function InitialState(s: Storage): (r: Result<StoreState, BootError>)
    ensures r.Err? <==> UserKey in s && Parse(s[UserKey]).Malformed?
    ensures r.Ok? ==> r.value.toastMessage == DefaultToast
    ensures r.Ok? ==> (Truthy(r.value.authenticated) <==> HasNonEmpty(s, AccessTokenKey))
    ensures r.Ok? && !HasNonEmpty(s, AccessTokenKey) ==> r.value.authenticated == Bool(false)
    ensures forall u :: UserKey in s && s[UserKey] == Stringify(u) ==> r.Ok? && r.value.user == u
    ensures r.Ok? && UserKey !in s ==> r.value.user == Empty
  {
    match InitialUser(s)
    case Err(e) => Err(e)
    case Ok(u) => Ok(StoreState(DefaultToast, u, InitialAuthenticated(s)))
  }
}
