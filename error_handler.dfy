/**
 * Normalisation of whatever a failed service call throws into a
 * `ServiceError {message, code?, status?}` (src/lib/utils/errorHandler.ts).
 *
 * The thrown value is one of the shapes the handler distinguishes: an HTTP
 * client error carrying an optional response, a plain `Error`, a string, some
 * other object, or anything else (`null`, `undefined`, numbers, booleans).
 * Logging and toasts are external effects; the toast text is returned.
 */
module ErrorHandling {
  import opened Wrappers
  import Text

  const DefaultMessage := "An error occurred"

  const Unauthorized := "Unauthorized. Please log in again."
  const AccessDenied := "Access denied. You don't have permission to perform this action."
  const NotFound := "Resource not found."
  const InternalError := "Internal server error. Please try again later."
  const Unavailable := "Service temporarily unavailable. Please try again later."
  const BadRequestPrefix := "Bad Request: "
  const ValidationPrefix := "Validation Error: "

  /** The `error` member of a response body or of a thrown object. */
  datatype ErrorBody = ErrorBody(message: Option<string>, code: Option<string>)

  /** The JSON body of an HTTP error response. */
  datatype ResponseData = ResponseData(message: Option<string>, error: Option<ErrorBody>, detail: Option<string>)

  datatype Response = Response(status: Option<int>, data: Option<ResponseData>)

  datatype ThrownValue =
    | HttpError(response: Option<Response>, transportMessage: string)
    | PlainError(errorMessage: string)
    | Text(text: string)
    | Record(recMessage: Option<string>, recError: Option<ErrorBody>, recCode: Option<string>,
             recStatus: Option<int>, recResponseStatus: Option<int>)
    | NoDetail

  datatype ServiceError = ServiceError(message: string, code: Option<string>, status: Option<int>)

  /** The statuses that replace the message by a fixed text. */
  predicate FixedStatus(s: int) {
    s == 401 || s == 403 || s == 404 || s == 500 || s == 502 || s == 503 || s == 504
  }

  function FixedStatusText(s: int): string
    requires FixedStatus(s)
  {
    if s == 401 then Unauthorized
    else if s == 403 then AccessDenied
    else if s == 404 then NotFound
    else if s == 500 then InternalError
    else Unavailable
  }

  /**
   * What a response body contributes: the first truthy of `message`,
   * `error.message` and `detail` (with `error.code` when `error` is present);
   * `current` when none applies.
   */
  function BodyMessage(data: ResponseData, current: string): (string, Option<string>)
  {
    if TruthyString(data.message) then (data.message.value, None)
    else if data.error.Some? then
      (if TruthyString(data.error.value.message) then data.error.value.message.value else current, data.error.value.code)
    else if TruthyString(data.detail) then (data.detail.value, None)
    else (current, None)
  }

  /** The message and code of an HTTP error before its status is considered. */
  function ExtractedMessage(response: Option<Response>, transportMessage: string, defaultMessage: string): (string, Option<string>)
  {
    var (m, code) :=
      if response.Some? && response.value.data.Some? then BodyMessage(response.value.data.value, defaultMessage)
      else (defaultMessage, None);
    (if m == defaultMessage && transportMessage != "" then transportMessage else m, code)
  }

  /** The message after the status-specific rewrite; unlisted statuses leave it alone. */
  function StatusMessage(status: Option<int>, m: string): string
  {
    if !TruthyNumber(status) then m
    else if FixedStatus(status.value) then FixedStatusText(status.value)
    else if status.value == 400 then (if Text.Contains(m, "400") then m else BadRequestPrefix + m)
    else if status.value == 422 then ValidationPrefix + m
    else m
  }

  /** The reference definition of the normalised error. */
  function ServiceErrorOf(error: ThrownValue, defaultMessage: string): ServiceError
  {
    match error
    case HttpError(response, transportMessage) =>
      var status := if response.Some? then response.value.status else None;
      var (m, code) := ExtractedMessage(response, transportMessage, defaultMessage);
      ServiceError(StatusMessage(status, m), code, status)
    case PlainError(m) => ServiceError(m, None, None)
    case Text(s) => ServiceError(s, None, None)
    case Record(message, inner, code, status, responseStatus) =>
      ServiceError(
        if TruthyString(message) then message.value
        else if inner.Some? && TruthyString(inner.value.message) then inner.value.message.value
        else defaultMessage,
        if TruthyString(code) then code else if inner.Some? then inner.value.code else None,
        if TruthyNumber(status) then status else responseStatus)
    case NoDetail => ServiceError(defaultMessage, None, None)
  }

  /**
   * `ErrorHandler.handleServiceError`: reassigns message, code and status
   * through the same chain of checks as the application.
   */
  method HandleServiceError(error: ThrownValue, defaultMessage: string) returns (r: ServiceError)
    ensures r == ServiceErrorOf(error, defaultMessage)
  {
    var errorMessage := defaultMessage;
    var errorCode: Option<string> := None;
    var status: Option<int> := None;
    match error {
      case HttpError(response, transportMessage) =>
        status := if response.Some? then response.value.status else None;
        if response.Some? && response.value.data.Some? {
          var responseData := response.value.data.value;
          if TruthyString(responseData.message) {
            errorMessage := responseData.message.value;
          } else if responseData.error.Some? {
            var errorData := responseData.error.value;
            errorMessage := if TruthyString(errorData.message) then errorData.message.value else errorMessage;
            errorCode := errorData.code;
          } else if TruthyString(responseData.detail) {
            errorMessage := responseData.detail.value;
          }
        }
        if errorMessage == defaultMessage && transportMessage != "" {
          errorMessage := transportMessage;
        }
        if TruthyNumber(status) {
          var s := status.value;
          if s == 400 {
            errorMessage := if Text.Contains(errorMessage, "400") then errorMessage else BadRequestPrefix + errorMessage;
          } else if s == 401 {
            errorMessage := Unauthorized;
          } else if s == 403 {
            errorMessage := AccessDenied;
          } else if s == 404 {
            errorMessage := NotFound;
          } else if s == 422 {
            errorMessage := ValidationPrefix + errorMessage;
          } else if s == 500 {
            errorMessage := InternalError;
          } else if s == 502 || s == 503 || s == 504 {
            errorMessage := Unavailable;
          }
        }
      case PlainError(m) =>
        errorMessage := m;
      case Text(s) =>
        errorMessage := s;
      case Record(message, inner, code, objStatus, responseStatus) =>
        errorMessage :=
          if TruthyString(message) then message.value
          else if inner.Some? && TruthyString(inner.value.message) then inner.value.message.value
          else defaultMessage;
        errorCode := if TruthyString(code) then code else if inner.Some? then inner.value.code else None;
        status := if TruthyNumber(objStatus) then objStatus else responseStatus;
      case NoDetail =>
    }
    r := ServiceError(errorMessage, errorCode, status);
  }

  /** `ErrorHandler.handleAndShowError`: the same result, and the text of the toast it shows. */
  method HandleAndShowError(error: ThrownValue, defaultMessage: string) returns (r: ServiceError, toast: string)
    ensures r == ServiceErrorOf(error, defaultMessage)
    ensures toast == r.message
  {
    r := HandleServiceError(error, defaultMessage);
    toast := r.message;
  }

  function StatusOf(error: ThrownValue): Option<int>
    requires error.HttpError?
  {
    if error.response.Some? then error.response.value.status else None
  }

  /**
   * For 401, 403, 404, 500 and 502-504 the message is a fixed text that depends
   * on the status alone, never on the body, the transport message or the default.
   */
  lemma FixedStatusIgnoresBody(e1: ThrownValue, e2: ThrownValue, d1: string, d2: string)
    requires e1.HttpError? && e2.HttpError?
    requires StatusOf(e1).Some? && StatusOf(e1) == StatusOf(e2) && FixedStatus(StatusOf(e1).value)
    ensures ServiceErrorOf(e1, d1).message == ServiceErrorOf(e2, d2).message
    ensures StatusOf(e1) == Some(401) ==> ServiceErrorOf(e1, d1).message == Unauthorized
    ensures StatusOf(e1) == Some(403) ==> ServiceErrorOf(e1, d1).message == AccessDenied
    ensures StatusOf(e1) == Some(404) ==> ServiceErrorOf(e1, d1).message == NotFound
    ensures StatusOf(e1) == Some(500) ==> ServiceErrorOf(e1, d1).message == InternalError
    ensures StatusOf(e1).value in {502, 503, 504} ==> ServiceErrorOf(e1, d1).message == Unavailable
  {
  }

  /**
   * Status 400 adds the "Bad Request: " prefix unless the extracted message
   * already mentions 400; either way the result mentions 400 or carries the prefix.
   */
  lemma BadRequestMessage(e: ThrownValue, d: string)
    requires e.HttpError? && StatusOf(e) == Some(400)
    ensures var m := ExtractedMessage(e.response, e.transportMessage, d).0;
      ServiceErrorOf(e, d).message == (if Text.Contains(m, "400") then m else BadRequestPrefix + m)
    ensures Text.Contains(ServiceErrorOf(e, d).message, "400") || Text.StartsWith(ServiceErrorOf(e, d).message, BadRequestPrefix)
  {
    var m := ExtractedMessage(e.response, e.transportMessage, d).0;
    if !Text.Contains(m, "400") {
      assert (BadRequestPrefix + m)[..|BadRequestPrefix|] == BadRequestPrefix;
    }
  }

  /** Status 422 always prefixes "Validation Error: " to the extracted message. */
  lemma ValidationMessage(e: ThrownValue, d: string)
    requires e.HttpError? && StatusOf(e) == Some(422)
    ensures Text.StartsWith(ServiceErrorOf(e, d).message, ValidationPrefix)
    ensures ServiceErrorOf(e, d).message[|ValidationPrefix|..] == ExtractedMessage(e.response, e.transportMessage, d).0
  {
    var m := ExtractedMessage(e.response, e.transportMessage, d).0;
    assert (ValidationPrefix + m)[..|ValidationPrefix|] == ValidationPrefix;
    assert (ValidationPrefix + m)[|ValidationPrefix|..] == m;
  }

  /** A missing, zero or unlisted status leaves the extracted message as it is. */
  lemma UnlistedStatusKeepsMessage(e: ThrownValue, d: string)
    requires e.HttpError?
    requires StatusOf(e).None? || !(FixedStatus(StatusOf(e).value) || StatusOf(e).value in {400, 422})
    ensures ServiceErrorOf(e, d).message == ExtractedMessage(e.response, e.transportMessage, d).0
  {
  }

  /**
   * The status and code of an HTTP error: the status is the response's, and a
   * code is reported only when the body has no truthy `message` but an `error`.
   */
  lemma HttpStatusAndCode(e: ThrownValue, d: string)
    requires e.HttpError?
    ensures ServiceErrorOf(e, d).status == StatusOf(e)
    ensures ServiceErrorOf(e, d).code.Some? ==>
      e.response.Some? && e.response.value.data.Some? &&
      !TruthyString(e.response.value.data.value.message) && e.response.value.data.value.error.Some? &&
      ServiceErrorOf(e, d).code == e.response.value.data.value.error.value.code
  {
  }

  /**
   * Body precedence: a truthy `message` wins; otherwise an `error` member
   * supplies its truthy message (else the current one) and its code; otherwise
   * a truthy `detail`; otherwise the current message stands.
   */
  lemma BodyPrecedence(data: ResponseData, current: string)
    ensures TruthyString(data.message) ==> BodyMessage(data, current) == (data.message.value, None)
    ensures !TruthyString(data.message) && data.error.Some? ==>
      BodyMessage(data, current).1 == data.error.value.code &&
      BodyMessage(data, current).0 ==
        (if TruthyString(data.error.value.message) then data.error.value.message.value else current)
    ensures !TruthyString(data.message) && data.error.None? && TruthyString(data.detail) ==>
      BodyMessage(data, current) == (data.detail.value, None)
    ensures !TruthyString(data.message) && data.error.None? && !TruthyString(data.detail) ==>
      BodyMessage(data, current) == (current, None)
  {
  }

  /**
   * The transport message replaces the extracted message exactly when the body
   * left the default in place and the transport message is non-empty.
   */
  lemma TransportFallback(response: Option<Response>, transportMessage: string, d: string)
    ensures var body := if response.Some? && response.value.data.Some? then BodyMessage(response.value.data.value, d).0 else d;
      ExtractedMessage(response, transportMessage, d).0 == (if body == d && transportMessage != "" then transportMessage else body)
    ensures response.None? && transportMessage != "" ==> ExtractedMessage(response, transportMessage, d).0 == transportMessage
  {
  }

  /**
   * Provenance of the extracted message: it is always the body's `message`,
   * its `error.message` or its `detail`, the transport message, or the default.
   */
  lemma ExtractedMessageProvenance(response: Option<Response>, transportMessage: string, d: string)
    ensures var m := ExtractedMessage(response, transportMessage, d).0;
      m == d || m == transportMessage ||
      (response.Some? && response.value.data.Some? &&
        var data := response.value.data.value;
        (data.message.Some? && m == data.message.value) ||
        (data.error.Some? && data.error.value.message.Some? && m == data.error.value.message.value) ||
        (data.detail.Some? && m == data.detail.value))
  {
  }

  /**
   * The other shapes: an `Error` gives its message, a string gives itself, an
   * object gives `message`, else `error.message`, else the default, with the
   * status from `status` or else `response.status`; anything else keeps the default.
   */
  lemma NonHttpErrors(e: ThrownValue, d: string)
    requires !e.HttpError?
    ensures e.PlainError? ==> ServiceErrorOf(e, d) == ServiceError(e.errorMessage, None, None)
    ensures e.Text? ==> ServiceErrorOf(e, d) == ServiceError(e.text, None, None)
    ensures e.NoDetail? ==> ServiceErrorOf(e, d) == ServiceError(d, None, None)
    ensures e.Record? && TruthyString(e.recMessage) ==> ServiceErrorOf(e, d).message == e.recMessage.value
    ensures e.Record? && !TruthyString(e.recMessage) && e.recError.Some? && TruthyString(e.recError.value.message) ==>
      ServiceErrorOf(e, d).message == e.recError.value.message.value
    ensures e.Record? && !TruthyString(e.recMessage) && !(e.recError.Some? && TruthyString(e.recError.value.message)) ==>
      ServiceErrorOf(e, d).message == d
    ensures e.Record? ==> ServiceErrorOf(e, d).status == (if TruthyNumber(e.recStatus) then e.recStatus else e.recResponseStatus)
    ensures e.Record? && TruthyString(e.recCode) ==> ServiceErrorOf(e, d).code == e.recCode
    ensures e.Record? && !TruthyString(e.recCode) ==>
      ServiceErrorOf(e, d).code == (if e.recError.Some? then e.recError.value.code else None)
  {
  }

  /**
   * Called without a default message, the handler falls back to "An error
   * occurred" for a throw that carries nothing usable, and for an HTTP error
   * without a response or transport message.
   */
  lemma OmittedDefaultMessage()
    ensures ServiceErrorOf(NoDetail, DefaultMessage).message == "An error occurred"
    ensures ServiceErrorOf(HttpError(None, ""), DefaultMessage).message == "An error occurred"
  {
  }
}
