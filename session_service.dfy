/**
 * `checkSession(now)`: the expiry decision over the stored `sessionEndIn`
 * and the logout, token removal and navigation it triggers.
 */
module SessionService {
  import opened Wrappers
  import opened Browser
  import opened JsNumber
  import opened UserCodec
  import opened Store
  import opened AppState
  import Mutations

  /**
   * `!sessionEnd || now > Number(sessionEnd)`: a missing or empty value is
   * expired; a stored value is expired only when strictly in the past, and a
   * value that is not a number never compares greater (NaN).
   */
  predicate Expired(storage: Storage, now: int)
  {
    match GetItem(storage, SessionEndKey)
    case None => true
    case Some(v) =>
      v == "" || (match Number(v) case NaN => false case Finite(n) => now > n)
  }

  function CheckSession(w: World, now: int, apiUrl: string): World
  {
    if Expired(w.storage, now) then
      var out := Mutations.Logout(w, apiUrl);
      out.(storage := out.storage - {AccessTokenKey}, effects := out.effects + [RouterPush(LoginRoute)])
    else w
  }

  lemma MissingSessionEndExpires(storage: Storage, now: int)
    requires !HasNonEmpty(storage, SessionEndKey)
    ensures Expired(storage, now)
  {
  }

  /** With `sessionEndIn` holding timestamp t, the session has expired exactly when now > t. */
  lemma ExpiryIsStrict(storage: Storage, t: nat, now: int)
    requires GetItem(storage, SessionEndKey) == Some(Decimal(t))
    ensures Expired(storage, now) <==> now > t
    ensures !Expired(storage, t) && Expired(storage, t + 1)
  {
    NumberOfDecimal(t);
  }

  /** A stored value that is not a number is never expired. */
  lemma NonNumericNeverExpires(storage: Storage, now: int)
    requires HasNonEmpty(storage, SessionEndKey) && Number(storage[SessionEndKey]) == NaN
    ensures !Expired(storage, now)
  {
  }

  /** A live session is left exactly as it was: no storage, state or navigation change. */
  lemma LiveSessionUnchanged(w: World, now: int, apiUrl: string)
    requires !Expired(w.storage, now)
    ensures CheckSession(w, now, apiUrl) == w
  {
  }

  /**
   * On expiry the token and user blob are gone, the store is logged out,
   * the axios defaults are reset, `sessionEndIn` is kept, and `login` is
   * pushed twice.
   */
  lemma ExpiredSessionLogsOut(w: World, now: int, apiUrl: string)
    requires Expired(w.storage, now)
    ensures var out := CheckSession(w, now, apiUrl);
      && AccessTokenKey !in out.storage && UserKey !in out.storage
      && out.storage == w.storage - {AccessTokenKey, UserKey}
      && out.store == StoreState(w.store.toastMessage, Empty, Bool(false))
      && out.defaults == Mutations.Logout(w, apiUrl).defaults
      && out.effects == w.effects + [RouterPush(LoginRoute), RouterPush(LoginRoute)]
  {
  }

  lemma CheckSessionKeepsSessionEnd(w: World, now: int, apiUrl: string)
    ensures GetItem(CheckSession(w, now, apiUrl).storage, SessionEndKey) == GetItem(w.storage, SessionEndKey)
  {
  }

  /** Once expired, every later check logs out again, because `sessionEndIn` is never cleared. */
  lemma ExpiryIsSticky(w: World, now: int, later: int, apiUrl: string)
    requires Expired(w.storage, now) && now <= later
    ensures Expired(CheckSession(w, now, apiUrl).storage, later)
    ensures CheckSession(CheckSession(w, now, apiUrl), later, apiUrl).effects
         == w.effects + [RouterPush(LoginRoute), RouterPush(LoginRoute), RouterPush(LoginRoute), RouterPush(LoginRoute)]
  {
  }

  lemma CheckSessionKeepsConsistent(w: World, now: int, apiUrl: string)
    requires Consistent(w)
    ensures Consistent(CheckSession(w, now, apiUrl))
  {
  }
}
