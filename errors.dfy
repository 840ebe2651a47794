// GlobalExceptionHandler: how an exception that escapes a controller
// becomes the HTTP status and the JSON error body. Only three exception
// types have their own handler; everything else, the services' not-found,
// access-denied and illegal-argument exceptions included, reaches the
// catch-all and becomes a 500 with a fixed message.

module Errors {
  import opened Common
  import opened Calendar
  import opened Validation

  /** What a controller can throw: a failed @Valid check with its field
      errors in binding order, one of the service exceptions, or any other
      exception (a malformed body, a framework error). */
  datatype Thrown =
    | ValidationFailed(fieldErrors: seq<FieldError>)
    | Service(error: ApiError)
    | Unexpected

  /** ErrorResponse. */
  datatype ErrorBody = ErrorBody(
    timestamp: DateTime,
    status: int,
    error: string,
    message: string,
    path: string,
    validationErrors: Option<map<string, string>>)

  const ValidationMessage: string := "Validation failed. Check 'validationErrors' for details."
  const BadCredentialsMessage: string := "Invalid username or password"
  const UnexpectedMessage: string := "An unexpected error occurred. Please try again later."

  /** HttpStatus.getReasonPhrase for the four statuses used. */
  function ReasonPhrase(status: int): string
  {
    if status == 400 then "Bad Request"
    else if status == 401 then "Unauthorized"
    else if status == 409 then "Conflict"
    else "Internal Server Error"
  }

  /** The HashMap after put(field, message) for each error in order. */
  function ErrorMap(errors: seq<FieldError>): map<string, string>
  {
    if errors == [] then map[]
    else
      var last := errors[|errors| - 1];
      ErrorMap(errors[..|errors| - 1])[last.field := last.message]
  }

  /** The map has an entry for exactly the fields that failed. */
  lemma {:induction false} ErrorMapKeys(errors: seq<FieldError>)
    ensures forall f :: f in ErrorMap(errors) <==> exists i :: 0 <= i < |errors| && errors[i].field == f
  {
    if errors != [] {
      var init := errors[..|errors| - 1];
      ErrorMapKeys(init);
      forall f | (exists i :: 0 <= i < |errors| && errors[i].field == f)
        ensures f in ErrorMap(errors)
      {
        var i :| 0 <= i < |errors| && errors[i].field == f;
        if i < |errors| - 1 {
          assert init[i].field == f;
        }
      }
      forall f | f in ErrorMap(errors)
        ensures exists i :: 0 <= i < |errors| && errors[i].field == f
      {
        if f != errors[|errors| - 1].field {
          assert f in ErrorMap(init);
          var i :|0 <= i < |init| && init[i].field == f;
          assert errors[i].field == f;
        }
      }
    }
  }

  /** A later error on a field overwrites an earlier one: each field maps
      to the message of its last error. */
  lemma {:induction false} ErrorMapLastWins(errors: seq<FieldError>, i: nat)
    requires i < |errors|
    requires forall j :: i < j < |errors| ==> errors[j].field != errors[i].field
    ensures errors[i].field in ErrorMap(errors)
    ensures ErrorMap(errors)[errors[i].field] == errors[i].message
  {
    var init := errors[..|errors| - 1];
    if i < |errors| - 1 {
      ErrorMapLastWins(init, i);
    }
  }

  /** The forEach of handleValidationExceptions, filling the map in place. */
  method CollectFieldErrors(errors: seq<FieldError>) returns (m: map<string, string>)
    ensures m == ErrorMap(errors)
  {
    m := map[];
    var i := 0;
    while i < |errors|
      invariant 0 <= i <= |errors|
      invariant m == ErrorMap(errors[..i])
    {
      assert errors[..i + 1][..i] == errors[..i];
      m := m[errors[i].field := errors[i].message];
      i := i + 1;
    }
    assert errors[..i] == errors;
  }

  /** The handler chosen for an exception, and the body it builds. */
  function Handle(ex: Thrown, path: string, now: DateTime): (body: ErrorBody)
    ensures body.path == path && body.timestamp == now && body.error == ReasonPhrase(body.status)
    ensures body.status == 400 <==> ex.ValidationFailed?
    ensures body.status == 401 <==> ex.Service? && ex.error.BadCredentials?
    ensures body.status == 409 <==> ex.Service? && ex.error.IllegalState?
    ensures body.status in {400, 401, 409, 500}
    ensures ex.ValidationFailed? ==>
      body.message == ValidationMessage && body.validationErrors == Some(ErrorMap(ex.fieldErrors))
    ensures !ex.ValidationFailed? ==> body.validationErrors.None?
    ensures ex.Service? && ex.error.BadCredentials? ==> body.message == BadCredentialsMessage
    ensures ex.Service? && ex.error.IllegalState? ==> body.message == ex.error.message
    ensures body.status == 500 ==> body.message == UnexpectedMessage
  {
    match ex
    case ValidationFailed(errors) =>
      ErrorBody(now, 400, ReasonPhrase(400), ValidationMessage, path, Some(ErrorMap(errors)))
    case Service(BadCredentials(_)) =>
      ErrorBody(now, 401, ReasonPhrase(401), BadCredentialsMessage, path, None)
    case Service(IllegalState(message)) =>
      ErrorBody(now, 409, ReasonPhrase(409), message, path, None)
    case _ =>
      ErrorBody(now, 500, ReasonPhrase(500), UnexpectedMessage, path, None)
  }

  /** The message of a BadCredentials exception never reaches the client:
      a wrong verification code and an unknown refresh token read the same
      as a failed login. */
  lemma BadCredentialsHidesMessage(m1: string, m2: string, path: string, now: DateTime)
    ensures Handle(Service(BadCredentials(m1)), path, now) == Handle(Service(BadCredentials(m2)), path, now)
    ensures Handle(Service(BadCredentials(m1)), path, now).message == BadCredentialsMessage
  {
  }

  /** Not-found, access-denied, illegal-argument, date-time and constraint
      failures are all reported as a 500. */
  lemma UnhandledServiceErrors(e: ApiError, path: string, now: DateTime)
    requires !e.BadCredentials? && !e.IllegalState?
    ensures Handle(Service(e), path, now).status == 500
    ensures Handle(Service(e), path, now) == Handle(Unexpected, path, now)
  {
  }
}
