/**
 * The browser surface the session core touches: `localStorage` as a map from
 * keys to strings, and the log of navigations and handler requests the core
 * causes (router pushes, assignments to `window.location.href`, and requests
 * for the session-expired handler made by the 401 hook).
 */
module Browser {
  import opened Wrappers

  /** `localStorage`: every value is a string, a missing key reads as null. */
  type Storage = map<string, string>

  const AccessTokenKey: string := "access_token"
  const UserKey: string := "user"
  const SessionEndKey: string := "sessionEndIn"

  /** The header that carries the bearer credential. */
  const AuthorizationHeader: string := "Authorization"

  /** `localStorage.getItem(key)`: None stands for JavaScript's null. */
  function GetItem(s: Storage, key: string): Option<string>
  {
    if key in s then Some(s[key]) else None
  }

  /** A string read from storage used as a condition: null and "" are falsy. */
  predicate HasNonEmpty(s: Storage, key: string)
  {
    key in s && s[key] != ""
  }

  /** Name of the route the session core navigates to on logout. */
  const LoginRoute: string := "login"
  /** Path assigned to `window.location.href` on a 403 response. */
  const AccessDeniedPath: string := "/auth/access"

  datatype Effect =
    | RouterPush(routeName: string)       // router.push({ name })
    | LocationAssigned(path: string)      // window.location.href = path
    | SessionExpiredRequested             // the 401 hook asks for handleSessionExpired
}
