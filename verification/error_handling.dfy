/**
 * lib/utils/error-handling.ts: the `AppError` family, the central handler
 * that turns anything thrown into `{message, type, statusCode, shouldNotify}`,
 * the API error factory and the form-error extractor.
 */
module ErrorHandling {
  import opened Wrappers
  import opened Strings

  /** Which class of the family built an `AppError`. */
  datatype AppClass = Base | Validation | Authentication | Authorization | NotFound | RateLimit | Network

  /** A thrown value: an `AppError`, another `Error`, or anything else. */
  datatype Thrown =
    | App(cls: AppClass, message: string, errType: string, statusCode: int, isOperational: bool)
    | Plain(name: string, message: string)
    | Other

  /** `new AppError(message, type = "APP_ERROR", statusCode = 500, isOperational = true)`. */
  function NewAppError(message: string, errType: string := "APP_ERROR", statusCode: int := 500, isOperational: bool := true): (e: Thrown)
    ensures e.App? && e.cls == Base && e.message == message
    ensures e.errType == errType && e.statusCode == statusCode && e.isOperational == isOperational
  {
    App(Base, message, errType, statusCode, isOperational)
  }

  /** `new ValidationError(message, field?)`: a non-empty field prefixes the message. */
  function NewValidationError(message: string, field: Option<string>): (e: Thrown)
    ensures e.App? && e.cls == Validation && e.errType == "VALIDATION_ERROR" && e.statusCode == 400 && e.isOperational
    ensures field.Some? && field.value != [] ==> e.message == field.value + ": " + message
    ensures field.None? || field.value == [] ==> e.message == message
  {
    var m := if field.Some? && field.value != [] then field.value + ": " + message else message;
    App(Validation, m, "VALIDATION_ERROR", 400, true)
  }

  function NewAuthenticationError(message: string := "Authentication required"): (e: Thrown)
    ensures e == App(Authentication, message, "AUTHENTICATION_ERROR", 401, true)
  {
    App(Authentication, message, "AUTHENTICATION_ERROR", 401, true)
  }

  function NewAuthorizationError(message: string := "Insufficient permissions"): (e: Thrown)
    ensures e == App(Authorization, message, "AUTHORIZATION_ERROR", 403, true)
  {
    App(Authorization, message, "AUTHORIZATION_ERROR", 403, true)
  }

  /** `new NotFoundError(resource = "Resource")`: the message is `<resource> not found`. */
  function NewNotFoundError(resource: string := "Resource"): (e: Thrown)
    ensures e.App? && e.cls == NotFound && e.errType == "NOT_FOUND_ERROR" && e.statusCode == 404
    ensures e.message == resource + " not found" && EndsWith(e.message, " not found")
  {
    var m := resource + " not found";
    assert m[|m| - 10..] == " not found";
    App(NotFound, m, "NOT_FOUND_ERROR", 404, true)
  }

  function NewRateLimitError(message: string := "Too many requests"): (e: Thrown)
    ensures e == App(RateLimit, message, "RATE_LIMIT_ERROR", 429, true)
  {
    App(RateLimit, message, "RATE_LIMIT_ERROR", 429, true)
  }

  function NewNetworkError(message: string := "Network error occurred"): (e: Thrown)
    ensures e == App(Network, message, "NETWORK_ERROR", 500, true)
  {
    App(Network, message, "NETWORK_ERROR", 500, true)
  }

  /* --------------------------------------------------------- ErrorHandler */

  datatype Config = Config(logErrors: bool, notifyUser: bool, fallbackMessage: string)

  const DefaultConfig: Config := Config(true, true, "An unexpected error occurred. Please try again.")

  datatype Handled = Handled(message: string, errType: string, statusCode: int, shouldNotify: bool)

  const NetworkMessage: string := "Network error. Please check your connection."
  const SignInMessage: string := "Authentication required. Please sign in."

  predicate LooksLikeValidation(e: Thrown) requires e.Plain? {
    e.name == "ValidationError" || Contains(e.message, "validation")
  }

  predicate LooksLikeNetwork(e: Thrown) requires e.Plain? {
    Contains(e.message, "network") || Contains(e.message, "fetch")
  }

  predicate LooksLikeAuth(e: Thrown) requires e.Plain? {
    Contains(e.message, "unauthorized") || Contains(e.message, "authentication")
  }

  /**
   * `ErrorHandler.handle`. An `AppError` passes through; a plain `Error` is
   * classified by name and case-sensitive message substrings, validation
   * first, then network, then authentication; everything else falls back.
   */
  function Handle(config: Config, e: Thrown): (r: Handled)
    ensures e.App? ==> r == Handled(e.message, e.errType, e.statusCode, config.notifyUser && e.isOperational)
    ensures !e.App? ==> r.shouldNotify == config.notifyUser
    ensures e.Plain? && LooksLikeValidation(e) ==> r.message == e.message && r.errType == "VALIDATION_ERROR" && r.statusCode == 400
    ensures e.Plain? && !LooksLikeValidation(e) && LooksLikeNetwork(e) ==>
      r.message == NetworkMessage && r.errType == "NETWORK_ERROR" && r.statusCode == 500
    ensures e.Plain? && !LooksLikeValidation(e) && !LooksLikeNetwork(e) && LooksLikeAuth(e) ==>
      r.message == SignInMessage && r.errType == "AUTHENTICATION_ERROR" && r.statusCode == 401
    ensures e.Other? || (e.Plain? && !LooksLikeValidation(e) && !LooksLikeNetwork(e) && !LooksLikeAuth(e)) ==>
      r.message == config.fallbackMessage && r.errType == "UNKNOWN_ERROR" && r.statusCode == 500
  {
    match e
    case App(_, message, errType, statusCode, isOperational) =>
      Handled(message, errType, statusCode, config.notifyUser && isOperational)
    case Plain(_, message) =>
      if LooksLikeValidation(e) then Handled(message, "VALIDATION_ERROR", 400, config.notifyUser)
      else if LooksLikeNetwork(e) then Handled(NetworkMessage, "NETWORK_ERROR", 500, config.notifyUser)
      else if LooksLikeAuth(e) then Handled(SignInMessage, "AUTHENTICATION_ERROR", 401, config.notifyUser)
      else Handled(config.fallbackMessage, "UNKNOWN_ERROR", 500, config.notifyUser)
    case Other =>
      Handled(config.fallbackMessage, "UNKNOWN_ERROR", 500, config.notifyUser)
  }

  /** For anything that is not an `AppError`, the type decides the status, and only four pairs occur. */
  lemma HandleClassifiesPlainErrors(config: Config, e: Thrown)
    requires !e.App?
    ensures var r := Handle(config, e);
      (r.errType == "VALIDATION_ERROR" && r.statusCode == 400)
      || (r.errType == "NETWORK_ERROR" && r.statusCode == 500)
      || (r.errType == "AUTHENTICATION_ERROR" && r.statusCode == 401)
      || (r.errType == "UNKNOWN_ERROR" && r.statusCode == 500)
  {
  }

  /** Handling is never louder than the configuration: no notification when `notifyUser` is off. */
  lemma HandleNotifiesOnlyIfConfigured(config: Config, e: Thrown)
    ensures Handle(config, e).shouldNotify ==> config.notifyUser
  {
  }

  /* ------------------------------------------------------- createApiError */

  /** The optional JSON body of a failed response, as far as its string fields go. */
  datatype ErrorBody = ErrorBody(message: Option<string>, error: Option<string>)

  predicate Truthy(s: Option<string>) { s.Some? && s.value != [] }

  /** `data?.message || data?.error || response.statusText`. */
  function ApiMessage(data: Option<ErrorBody>, statusText: string): (m: string)
    ensures data.Some? && Truthy(data.value.message) ==> m == data.value.message.value
    ensures data.Some? && !Truthy(data.value.message) && Truthy(data.value.error) ==> m == data.value.error.value
    ensures data.None? || (!Truthy(data.value.message) && !Truthy(data.value.error)) ==> m == statusText
  {
    if data.Some? && Truthy(data.value.message) then data.value.message.value
    else if data.Some? && Truthy(data.value.error) then data.value.error.value
    else statusText
  }

  /** `createApiError`: the status picks the class; any other status becomes `API_ERROR`. */
  function CreateApiError(status: int, statusText: string, data: Option<ErrorBody>): (e: Thrown)
    ensures e.App? && e.statusCode == status && e.isOperational
    ensures status == 400 ==> e == NewValidationError(ApiMessage(data, statusText), None)
    ensures status == 401 ==> e == App(Authentication, ApiMessage(data, statusText), "AUTHENTICATION_ERROR", 401, true)
    ensures status == 403 ==> e == App(Authorization, ApiMessage(data, statusText), "AUTHORIZATION_ERROR", 403, true)
    ensures status == 404 ==>
      e == App(NotFound, ApiMessage(data, statusText) + " not found", "NOT_FOUND_ERROR", 404, true)
    ensures status == 429 ==> e == App(RateLimit, ApiMessage(data, statusText), "RATE_LIMIT_ERROR", 429, true)
    ensures status !in {400, 401, 403, 404, 429} ==>
      e == App(Base, ApiMessage(data, statusText), "API_ERROR", status, true)
  {
    var message := ApiMessage(data, statusText);
    if status == 400 then NewValidationError(message, None)
    else if status == 401 then NewAuthenticationError(message)
    else if status == 403 then NewAuthorizationError(message)
    else if status == 404 then NewNotFoundError(message)
    else if status == 429 then NewRateLimitError(message)
    else NewAppError(message, "API_ERROR", status)
  }

  /** Handling an API error reports the response's own status code. */
  lemma HandleKeepsApiStatus(config: Config, status: int, statusText: string, data: Option<ErrorBody>)
    ensures Handle(config, CreateApiError(status, statusText, data)).statusCode == status
    ensures Handle(config, CreateApiError(status, statusText, data)).shouldNotify == config.notifyUser
  {
  }

  /** The type a handled API error reports is the one its status class sets. */
  lemma HandleKeepsApiType(config: Config, status: int, statusText: string, data: Option<ErrorBody>)
    ensures Handle(config, CreateApiError(status, statusText, data)).errType ==
      if status == 400 then "VALIDATION_ERROR"
      else if status == 401 then "AUTHENTICATION_ERROR"
      else if status == 403 then "AUTHORIZATION_ERROR"
      else if status == 404 then "NOT_FOUND_ERROR"
      else if status == 429 then "RATE_LIMIT_ERROR"
      else "API_ERROR"
  {
  }

  /* ---------------------------------------------------- asyncErrorHandler */

  /**
   * `asyncErrorHandler(fn)` applied to one call's outcome: a resolution is
   * passed on; a rejection goes through the shared handler (the default
   * configuration) and is rethrown as a base `AppError` carrying the
   * handled message, type and status.
   */
  function AsyncErrorHandler<T>(outcome: Result<T, Thrown>): (r: Result<T, Thrown>)
    ensures outcome.Ok? ==> r == outcome
    ensures outcome.Err? ==>
      && r.Err? && r.error.App? && r.error.cls == Base && r.error.isOperational
      && r.error.message == Handle(DefaultConfig, outcome.error).message
      && r.error.errType == Handle(DefaultConfig, outcome.error).errType
      && r.error.statusCode == Handle(DefaultConfig, outcome.error).statusCode
  {
    match outcome
    case Ok(_) => outcome
    case Err(e) =>
      var handled := Handle(DefaultConfig, e);
      Err(NewAppError(handled.message, handled.errType, handled.statusCode))
  }

  /**
   * Wrapping twice is wrapping once: a rethrown error is an `AppError`, which
   * the handler passes through, so its message, type and status survive.
   */
  lemma AsyncErrorHandlerIdempotent<T>(outcome: Result<T, Thrown>)
    ensures AsyncErrorHandler(AsyncErrorHandler(outcome)) == AsyncErrorHandler(outcome)
  {
  }

  /** An `AppError` rejection keeps its message, type and status through the wrapper. */
  lemma AsyncErrorHandlerKeepsAppErrors<T>(outcome: Result<T, Thrown>)
    requires outcome.Err? && outcome.error.App?
    ensures AsyncErrorHandler(outcome)
      == Err(App(Base, outcome.error.message, outcome.error.errType, outcome.error.statusCode, true))
  {
  }

  /* ---------------------------------------------------- extractFormErrors */

  /**
   * `/^([^:]+): (.+)$/`: the text up to the first colon (at least one
   * character), then `": "`, then at least one character and no line
   * terminator up to the end.
   */
  function FieldPattern(s: string): (r: Option<(string, string)>)
    ensures r.Some? ==> s == r.value.0 + ": " + r.value.1
    ensures r.Some? ==> r.value.0 != [] && r.value.1 != [] && !Contains(r.value.0, ":")
  {
    match IndexOf(s, ":", 0)
    case None => None
    case Some(i) =>
      if 1 <= i && i + 2 < |s| && s[i + 1] == ' ' && NoLineTerminator(s[i + 2..]) then
        var field, msg := s[..i], s[i + 2..];
        assert s == field + ": " + msg;
        assert !Contains(field, ":") by {
          forall k | 0 <= k <= |field| - 1 ensures !OccursAt(field, ":", k) {
            assert !StartsWith(s[k..], ":");
            assert s[k..][..1] == field[k..k + 1];
          }
        }
        Some((field, msg))
      else None
  }

  predicate NoLineTerminator(s: string) {
    forall i :: 0 <= i < |s| ==> s[i] != '\n' && s[i] != '\r' && s[i] as int != 0x2028 && s[i] as int != 0x2029
  }

  /** `JSON.parse(message)` when it yields a non-null object, as string fields; foreign. */
  type JsonObjectParser = string -> Option<map<string, string>>

  /**
   * `extractFormErrors`: a `ValidationError` whose message has the
   * `field: message` shape gives that one entry; an error mentioning
   * "validation" whose message is a JSON object gives the object; anything
   * else gives `general` = the default handler's message.
   */
  function ExtractFormErrors(e: Thrown, parseJson: JsonObjectParser): (r: map<string, string>)
    ensures e.App? && e.cls == Validation && FieldPattern(e.message).Some? ==>
      r == map[FieldPattern(e.message).value.0 := FieldPattern(e.message).value.1]
    ensures (!e.Other? && !(e.App? && e.cls == Validation && FieldPattern(e.message).Some?)
             && Contains(e.message, "validation") && parseJson(e.message).Some?)
      ==> r == parseJson(e.message).value
    ensures (!(e.App? && e.cls == Validation && FieldPattern(e.message).Some?)
             && !(!e.Other? && Contains(e.message, "validation") && parseJson(e.message).Some?))
      ==> r == map["general" := Handle(DefaultConfig, e).message]
  {
    if e.App? && e.cls == Validation && FieldPattern(e.message).Some? then
      var (field, msg) := FieldPattern(e.message).value;
      map[field := msg]
    else if !e.Other? && Contains(e.message, "validation") && parseJson(e.message).Some? then
      parseJson(e.message).value
    else
      map["general" := Handle(DefaultConfig, e).message]
  }

  lemma {:induction false} NoColonNoIndex(field: string, rest: string)
    requires !Contains(field, ":")
    requires rest != [] && rest[0] == ':'
    ensures IndexOf(field + rest, ":", 0) == Some(|field|)
  {
    var s := field + rest;
    assert StartsWith(s[|field|..], ":") by { assert s[|field|..][..1] == [rest[0]]; }
    forall k | 0 <= k < |field| ensures !StartsWith(s[k..], ":") {
      assert s[k..][..1] == field[k..k + 1];
      assert !OccursAt(field, ":", k);
    }
    IndexOfLeast(s, ":", 0, |field|);
  }

  /** `IndexOf` finds the least match. */
  lemma {:induction false} IndexOfLeast(s: string, p: string, from: nat, i: nat)
    requires from <= i <= |s| && StartsWith(s[i..], p)
    requires forall k :: from <= k < i ==> !StartsWith(s[k..], p)
    ensures IndexOf(s, p, from) == Some(i)
    decreases i - from
  {
    if from < i {
      IndexOfLeast(s, p, from + 1, i);
    }
  }

  /**
   * Round trip: a `ValidationError` built with a non-empty colon-free field
   * and a non-empty one-line message is read back as `{field: message}`.
   */
  lemma ExtractFormErrorsRoundTrip(field: string, message: string, parseJson: JsonObjectParser)
    requires field != [] && !Contains(field, ":")
    requires message != [] && NoLineTerminator(message)
    ensures ExtractFormErrors(NewValidationError(message, Some(field)), parseJson) == map[field := message]
  {
    var s := field + ": " + message;
    assert s == field + (": " + message);
    NoColonNoIndex(field, ": " + message);
    assert s[|field| + 2..] == message;
    assert FieldPattern(s) == Some((field, message));
  }
}
