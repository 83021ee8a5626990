/**
 * The shared axios instance of src/utils/session.tsx: its default `Authorization`
 * header, which `setSession` writes, and its response interceptor, which replaces every
 * failure by the response body or a fixed message.
 */
module Session {
  import opened Wrappers
  import opened Js

  const BearerPrefix: string := "Bearer "
  const FallbackReason: string := "Something went wrong"

  /** The header value `Bearer <token>` (section 2.1 of RFC 6750). */
  function BearerHeader(token: string): string {
    BearerPrefix + token
  }

  /** Reads the token back out of an `Authorization` header value. */
  function HeaderToken(header: string): Option<string> {
    if |header| >= |BearerPrefix| && header[..|BearerPrefix|] == BearerPrefix
    then Some(header[|BearerPrefix|..])
    else None
  }

  lemma HeaderTokenRoundTrip(token: string)
    ensures HeaderToken(BearerHeader(token)) == Some(token)
  {
    assert BearerHeader(token)[..|BearerPrefix|] == BearerPrefix;
    assert BearerHeader(token)[|BearerPrefix|..] == token;
  }

  /**
   * The default header after `setSession(token)`: a truthy token (rendered by the
   * template literal) replaces it, anything else leaves it exactly as it was.
   */
  function NextAuthorization(current: Option<string>, token: JsValue): (r: Option<string>)
    ensures r.None? ==> current.None?
    ensures Truthy(token) ==> r.Some? && HeaderToken(r.value) == Some(Text(token))
    ensures !Truthy(token) ==> r == current
  {
    if Truthy(token) then HeaderTokenRoundTrip(Text(token)); Some(BearerHeader(Text(token)))
    else current
  }

  lemma SetSessionIdempotent(current: Option<string>, token: JsValue)
    ensures NextAuthorization(NextAuthorization(current, token), token) == NextAuthorization(current, token)
  {
  }

  lemma StringTokenHeader(current: Option<string>, token: string)
    requires token != ""
    ensures NextAuthorization(current, Str(token)) == Some("Bearer " + token)
  {
  }

  /** `axiosInstance.defaults.headers.common.Authorization`, absent until first set. */
  class Transport {
    var authorization: Option<string>

    constructor ()
      ensures authorization == None
    {
      authorization := None;
    }

    method SetSession(token: JsValue)
      modifies this`authorization
      ensures authorization == NextAuthorization(old(authorization), token)
      ensures !Truthy(token) ==> authorization == old(authorization)
    {
      if Truthy(token) {
        authorization := Some(BearerHeader(Text(token)));
      }
    }
  }

  /** The part of an axios error the interceptor reads: the HTTP response, if one arrived. */
  datatype ErrorResponse = ErrorResponse(status: int, data: JsValue)
  datatype AxiosError = AxiosError(response: Option<ErrorResponse>)

  /** `(error.response && error.response.data) || "Something went wrong"` */
  function RejectionValue(error: AxiosError): (r: JsValue)
    ensures Truthy(r)
    ensures error.response.Some? && Truthy(error.response.value.data) ==> r == error.response.value.data
    ensures !(error.response.Some? && Truthy(error.response.value.data)) ==> r == Str(FallbackReason)
  {
    match error.response
    case None => Str(FallbackReason)
    case Some(response) => Or(response.data, Str(FallbackReason))
  }

  /** The interceptor pair: a response passes through, a failure rejects with `RejectionValue`. */
  function Intercept<T>(outcome: Result<T, AxiosError>): (r: Result<T, JsValue>)
    ensures outcome.Success? <==> r.Success?
    ensures outcome.Success? ==> r.value == outcome.value
    ensures outcome.Failure? ==> r.error == RejectionValue(outcome.error) && !Nullish(r.error)
  {
    match outcome
    case Success(response) => Success(response)
    case Failure(error) => Failure(RejectionValue(error))
  }

  /** `error.message` of a rejection reason, as `alert` shows it; the read throws only on a nullish reason. */
  function ErrorMessage(reason: JsValue): (m: string)
    requires !Nullish(reason)
    ensures reason.Obj? && "message" in reason.fields ==> m == Text(reason.fields["message"])
    ensures !(reason.Obj? && "message" in reason.fields) ==> m == "undefined"
  {
    Text(Member(reason, "message").value)
  }

  /**
   * Without a response the reason is the fallback string and its `message` reads
   * "undefined"; with a response it is the `message` of the response data, if any.
   */
  lemma RejectionMessage(error: AxiosError)
    ensures error.response.None? ==> ErrorMessage(RejectionValue(error)) == "undefined"
    ensures error.response.Some? && error.response.value.data.Obj? && "message" in error.response.value.data.fields ==>
      ErrorMessage(RejectionValue(error)) == Text(error.response.value.data.fields["message"])
  {
  }
}
