// The client's error helpers: the text shown for a failed call, and the
// test for an authorization failure. A thrown value is an axios error (an
// Error carrying isAxiosError), another Error, or anything else.

module ErrorUtils {
  import opened Common
  import opened AuthStore
  import Errors
  import Calendar

  /** ApiErrorResponse as the client reads it; validationErrors is given by
      Object.values of the object, in its key order. */
  datatype ErrorData = ErrorData(
    message: Option<string>,
    validationErrors: Option<seq<string>>,
    error: Option<string>)

  datatype Response = Response(status: int, data: Option<ErrorData>)

  datatype Thrown =
    | AxiosErr(response: Option<Response>, message: string)
    | PlainError(message: string)
    | OtherValue

  const NetworkError: string := "Network Error"
  const ConnectivityMessage: string := "Cannot connect to the server. Please check your internet connection."
  const FallbackMessage: string := "An unexpected error occurred"

  /** Array.join(", "). */
  function JoinComma(values: seq<string>): string
  {
    if values == [] then ""
    else if |values| == 1 then values[0]
    else values[0] + ", " + JoinComma(values[1..])
  }

  /** The text taken from the response body, when one of its fields gives
      one: the message, then the validation messages, then the error. */
  function FromData(d: ErrorData): (r: Option<string>)
    ensures Truthy(d.message) ==> r == d.message
    ensures !Truthy(d.message) && d.validationErrors.Some? && |d.validationErrors.value| > 0 ==>
      r == Some(JoinComma(d.validationErrors.value))
    ensures r.None? <==>
      !Truthy(d.message) && (d.validationErrors.None? || d.validationErrors.value == []) && !Truthy(d.error)
  {
    if Truthy(d.message) then d.message
    else if d.validationErrors.Some? && |d.validationErrors.value| > 0 then Some(JoinComma(d.validationErrors.value))
    else if Truthy(d.error) then d.error
    else None
  }

  /** The text an axios error's response body gives, if any. */
  function BodyText(e: Thrown): Option<string>
  {
    if e.AxiosErr? && e.response.Some? && e.response.value.data.Some? then FromData(e.response.value.data.value)
    else None
  }

  /** getErrorMessage. An axios error whose body gives no text falls back
      to its own message; an empty one reaches the instanceof Error test,
      which returns that same empty message. */
  function GetErrorMessage(e: Thrown): (r: string)
    ensures e.AxiosErr? && BodyText(e).Some? ==> r == BodyText(e).value
    ensures e.AxiosErr? && BodyText(e).None? ==>
      r == (if e.message == NetworkError then ConnectivityMessage else e.message)
    ensures e.PlainError? ==> r == e.message
    ensures e.OtherValue? ==> r == FallbackMessage
  {
    match e
    case AxiosErr(response, message) =>
      if response.Some? && response.value.data.Some? && FromData(response.value.data.value).Some? then
        FromData(response.value.data.value).value
      else if message != "" then
        (if message == NetworkError then ConnectivityMessage else message)
      else message
    case PlainError(message) => message
    case OtherValue => FallbackMessage
  }

  /** isUnauthorizedError: a 401 or a 403 on an axios error. */
  function IsUnauthorizedError(e: Thrown): (r: bool)
    ensures r <==> e.AxiosErr? && e.response.Some? && (e.response.value.status == 401 || e.response.value.status == 403)
  {
    match e
    case AxiosErr(response, _) => response.Some? && (response.value.status == 401 || response.value.status == 403)
    case _ => false
  }

  /** The body the API's exception handler sends, as the client reads it;
      the values of validationErrors in whatever order the JSON has them. */
  function AsReceived(b: Errors.ErrorBody, values: seq<string>): ErrorData
  {
    ErrorData(Some(b.message), if b.validationErrors.Some? then Some(values) else None, Some(b.error))
  }

  /** Against this API the validation list is never what the user sees:
      every handler sets a message, so the message wins, and only an empty
      409 message falls through to the status's reason phrase. */
  lemma ClientShowsHandlerMessage(ex: Errors.Thrown, path: string, now: Calendar.DateTime, values: seq<string>,
                                  status: int, axiosMessage: string)
    ensures var b := Errors.Handle(ex, path, now);
      GetErrorMessage(AxiosErr(Some(Response(status, Some(AsReceived(b, values)))), axiosMessage)) ==
        (if b.message != "" then b.message else b.error)
    ensures var b := Errors.Handle(ex, path, now);
      b.message == "" ==> ex.Service? && ex.error.IllegalState? && b.error == "Conflict"
  {
    var b := Errors.Handle(ex, path, now);
    assert Errors.ValidationMessage != "";
    assert Errors.BadCredentialsMessage != "";
    assert Errors.UnexpectedMessage != "";
    assert Errors.ReasonPhrase(b.status) != "";
  }
}
