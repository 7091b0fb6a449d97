/**
 * The axios interceptors: the request hook that attaches the bearer token,
 * and the two response-error hooks (401, then 403) that re-reject the error
 * after their side effect.
 */
module Http {
  import opened Wrappers
  import opened Browser

  /** The headers of one request config. */
  type Headers = map<string, string>

  /** The request hook's effect on `config.headers`. */
  function AttachBearer(storage: Storage, headers: Headers): Headers
  {
    if HasNonEmpty(storage, AccessTokenKey)
    then headers[AuthorizationHeader := "Bearer " + storage[AccessTokenKey]]
    else headers
  }

  lemma BearerAttached(storage: Storage, headers: Headers)
    requires HasNonEmpty(storage, AccessTokenKey)
    ensures AttachBearer(storage, headers)[AuthorizationHeader] == "Bearer " + storage[AccessTokenKey]
    ensures AttachBearer(storage, headers).Keys == headers.Keys + {AuthorizationHeader}
  {
  }

  lemma NoTokenNoHeader(storage: Storage, headers: Headers)
    requires !HasNonEmpty(storage, AccessTokenKey)
    ensures AttachBearer(storage, headers) == headers
  {
  }

  /** Only `Authorization` may change, and a request is never failed. */
  lemma OtherHeadersKept(storage: Storage, headers: Headers)
    ensures forall h :: h in headers && h != AuthorizationHeader ==>
              h in AttachBearer(storage, headers) && AttachBearer(storage, headers)[h] == headers[h]
    ensures forall h :: h in AttachBearer(storage, headers) ==> h in headers || h == AuthorizationHeader
  {
  }

  datatype Response = Response(status: int)

  /** An axios error; `response` is absent for network failures and timeouts. */
  datatype HttpError = HttpError(message: string, response: Option<Response>)

  /** The value a rejected promise carries. */
  datatype JsError = Axios(error: HttpError) | TypeError(message: string)

  /** Side effects run by a response hook, and the error it rejects with. */
  datatype HookResult = HookResult(effects: seq<Effect>, rejection: JsError)

  predicate HasStatus(e: HttpError, status: int)
  {
    e.response.Some? && e.response.value.status == status
  }

  /** The 401 hook: `error.response?.status === 401` requests the session-expired handler. */
  function OnUnauthorized(e: HttpError): HookResult
  {
    HookResult(if HasStatus(e, 401) then [SessionExpiredRequested] else [], Axios(e))
  }

  /**
   * The 403 hook as written, reading `error.response.status` without a guard:
   * an error without a response makes it throw, so the promise rejects with a
   * TypeError instead of the original error.
   */
  function OnForbiddenAsWritten(e: HttpError): HookResult
  {
    match e.response
    case None => HookResult([], TypeError("Cannot read properties of undefined (reading 'status')"))
    case Some(r) => HookResult(if r.status == 403 then [LocationAssigned(AccessDeniedPath)] else [], Axios(e))
  }

  /** The 403 hook with the guard the 401 hook has: a missing response is no match. */
  function OnForbidden(e: HttpError): HookResult
  {
    HookResult(if HasStatus(e, 403) then [LocationAssigned(AccessDeniedPath)] else [], Axios(e))
  }

  /**
   * Both hooks in registration order, with the guarded 403 hook. The 401 hook
   * always re-rejects `e` itself, so the second hook sees `e`.
   */
  function OnResponseError(e: HttpError): HookResult
  {
    var first := OnUnauthorized(e);
    var second := OnForbidden(e);
    HookResult(first.effects + second.effects, second.rejection)
  }

  /** Both hooks in registration order, with the 403 hook as written. */
  function OnResponseErrorAsWritten(e: HttpError): HookResult
  {
    var first := OnUnauthorized(e);
    var second := OnForbiddenAsWritten(e);
    HookResult(first.effects + second.effects, second.rejection)
  }

  /** The 401 hook hands the same error on for every input. */
  lemma UnauthorizedReRejects(e: HttpError)
    ensures OnUnauthorized(e).rejection == Axios(e)
  {
  }

  /**
   * As written, the pair rejects a response-less error with a TypeError; with
   * a response it behaves exactly as the guarded pair.
   */
  lemma ResponseChainAsWritten(e: HttpError)
    ensures e.response.None? ==> OnResponseErrorAsWritten(e).rejection.TypeError?
    ensures e.response.None? ==> OnResponseErrorAsWritten(e).effects == []
    ensures e.response.Some? ==> OnResponseErrorAsWritten(e) == OnResponseError(e)
  {
  }

  /** A network failure with no response: the hook as written replaces the caller's error. */
  lemma NoResponseAsWritten(e: HttpError)
    requires e.response.None?
    ensures OnForbiddenAsWritten(e).rejection != Axios(e)
    ensures OnForbiddenAsWritten(e).rejection.TypeError?
  {
  }

  /** The corrected hook re-rejects the caller's own error for every input. */
  lemma ForbiddenAlwaysReRejects(e: HttpError)
    ensures OnForbidden(e).rejection == Axios(e)
    ensures e.response.None? ==> OnForbidden(e).effects == []
    ensures e.response.Some? ==> OnForbidden(e) == OnForbiddenAsWritten(e)
  {
  }

  /**
   * Failure routing of the pair: 401 requests the session-expired handler,
   * 403 navigates to the access-denied page, anything else has no effect;
   * every case re-rejects the same error.
   */
  lemma ResponseErrorRouting(e: HttpError)
    ensures OnResponseError(e).rejection == Axios(e)
    ensures HasStatus(e, 401) ==> OnResponseError(e).effects == [SessionExpiredRequested]
    ensures HasStatus(e, 403) ==> OnResponseError(e).effects == [LocationAssigned(AccessDeniedPath)]
    ensures !HasStatus(e, 401) && !HasStatus(e, 403) ==> OnResponseError(e).effects == []
  {
  }
}
