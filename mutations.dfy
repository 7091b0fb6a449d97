/**
 * The store's three mutations as transitions of the application snapshot,
 * and what each of them writes, removes and leaves alone.
 */
module Mutations {
  import opened Browser
  import opened UserCodec
  import opened Store
  import opened AppState

  /** `setToastMessage`: replaces the toast. */
  function SetToastMessage(w: World, t: Toast): World
  {
    w.(store := w.store.(toastMessage := t))
  }

  /** `login`: saves token and serialised payload, then marks the store authenticated. */
  function Login(w: World, p: Payload): World
  {
    w.(storage := w.storage[AccessTokenKey := p.accessToken][UserKey := Stringify(Profile(p))],
       store := w.store.(authenticated := Bool(true), user := Profile(p)))
  }

  /**
   * `logout`: removes token and user blob, resets the store, nulls the
   * default Authorization header, restores the base URL and pushes `login`.
   */
  function Logout(w: World, apiUrl: string): World
  {
    w.(storage := w.storage - {AccessTokenKey} - {UserKey},
       store := w.store.(authenticated := Bool(false), user := Empty),
       defaults := HttpDefaults(apiUrl, w.defaults.common[AuthorizationHeader := NullHeader]),
       effects := w.effects + [RouterPush(LoginRoute)])
  }

  /** `logout` committed n times in a row. */
  function LogoutTimes(w: World, apiUrl: string, n: nat): World
    decreases n
  {
    if n == 0 then w else LogoutTimes(Logout(w, apiUrl), apiUrl, n - 1)
  }

  /** n pushes of the `login` route. */
  function LoginPushes(n: nat): (r: seq<Effect>)
    ensures |r| == n
    ensures forall i :: 0 <= i < n ==> r[i] == RouterPush(LoginRoute)
  {
    if n == 0 then [] else [RouterPush(LoginRoute)] + LoginPushes(n - 1)
  }

  lemma SetToastMessageChangesOnlyToast(w: World, t: Toast)
    ensures SetToastMessage(w, t).store.toastMessage == t
    ensures SetToastMessage(w, t).(store := w.store) == w
  {
  }

  lemma LoginWrites(w: World, p: Payload)
    ensures Login(w, p).storage.Keys == w.storage.Keys + {AccessTokenKey, UserKey}
    ensures Login(w, p).storage[AccessTokenKey] == p.accessToken
    ensures Login(w, p).storage[UserKey] == Stringify(Profile(p))
    ensures forall k :: k in w.storage && k != AccessTokenKey && k != UserKey ==> Login(w, p).storage[k] == w.storage[k]
    ensures Login(w, p).store == StoreState(w.store.toastMessage, Profile(p), Bool(true))
    ensures Login(w, p).defaults == w.defaults && Login(w, p).effects == w.effects
  {
  }

  lemma LogoutClears(w: World, apiUrl: string)
    ensures AccessTokenKey !in Logout(w, apiUrl).storage && UserKey !in Logout(w, apiUrl).storage
    ensures Logout(w, apiUrl).storage.Keys == w.storage.Keys - {AccessTokenKey, UserKey}
    ensures forall k :: k in Logout(w, apiUrl).storage ==> Logout(w, apiUrl).storage[k] == w.storage[k]
    ensures Logout(w, apiUrl).store == StoreState(w.store.toastMessage, Empty, Bool(false))
    ensures Logout(w, apiUrl).defaults.common[AuthorizationHeader] == NullHeader
    ensures Logout(w, apiUrl).defaults.common.Keys == w.defaults.common.Keys + {AuthorizationHeader}
    ensures Logout(w, apiUrl).defaults.baseURL == apiUrl
    ensures forall h :: h in w.defaults.common && h != AuthorizationHeader ==>
              h in Logout(w, apiUrl).defaults.common && Logout(w, apiUrl).defaults.common[h] == w.defaults.common[h]
    ensures Logout(w, apiUrl).effects == w.effects + [RouterPush(LoginRoute)]
  {
  }

  /** A second `logout` changes nothing but adds one more navigation to `login`. */
  lemma LogoutIdempotent(w: World, apiUrl: string)
    ensures Logout(Logout(w, apiUrl), apiUrl).(effects := []) == Logout(w, apiUrl).(effects := [])
    ensures Logout(Logout(w, apiUrl), apiUrl).effects == Logout(w, apiUrl).effects + [RouterPush(LoginRoute)]
  {
  }

  /** n commits of `logout` (n > 0) leave the state of one commit and n pushes of `login`. */
  lemma {:induction false} LogoutRepeated(w: World, apiUrl: string, n: nat)
    requires n > 0
    ensures LogoutTimes(w, apiUrl, n).(effects := []) == Logout(w, apiUrl).(effects := [])
    ensures LogoutTimes(w, apiUrl, n).effects == w.effects + LoginPushes(n)
    decreases n
  {
    if n == 1 {
      assert LogoutTimes(w, apiUrl, 1) == LogoutTimes(Logout(w, apiUrl), apiUrl, 0);
      assert LoginPushes(1) == [RouterPush(LoginRoute)];
    } else {
      var once := Logout(w, apiUrl);
      LogoutRepeated(once, apiUrl, n - 1);
      LogoutIdempotent(w, apiUrl);
      assert w.effects + LoginPushes(n) == w.effects + [RouterPush(LoginRoute)] + LoginPushes(n - 1);
    }
  }

  /** Neither `login` nor `logout` reads or writes `sessionEndIn`. */
  lemma SessionEndUntouched(w: World, p: Payload, apiUrl: string)
    ensures GetItem(Login(w, p).storage, SessionEndKey) == GetItem(w.storage, SessionEndKey)
    ensures GetItem(Logout(w, apiUrl).storage, SessionEndKey) == GetItem(w.storage, SessionEndKey)
  {
  }

  /** Every mutation keeps the store flag in agreement with the stored token. */
  lemma MutationsKeepConsistent(w: World, p: Payload, t: Toast, apiUrl: string)
    requires Consistent(w)
    ensures Consistent(Login(w, p))
    ensures Consistent(Logout(w, apiUrl))
    ensures Consistent(SetToastMessage(w, t))
  {
  }
}
