/**
 * `ErrorBoundaryService`: which errors are worth retrying, and the one
 * current error the viewer reports to (its `BehaviorSubject` is reduced to a
 * field holding the latest value).
 */
module ErrorBoundary {
  import opened Types
  import opened Text

  /** What `reportError` accepts: a message string or an `Error` object, which may carry a `code`. */
  datatype ErrorInput =
    | Message(text: string)
    | ErrorObject(message: string, code: Option<string>)

  /** `details`: the error object itself, or `{ context }` for a string. */
  datatype Details = ObjectDetails(error: ErrorInput) | ContextDetails(context: Option<string>)

  /** `ErrorInfo`; the timestamp is a time in milliseconds. */
  datatype ErrorInfo = ErrorInfo(message: string, code: Option<string>, details: Details, timestamp: int, retryable: bool)

  /** The message an error reports. */
  function MessageOf(e: ErrorInput): string
  {
    match e
    case Message(text) => text
    case ErrorObject(message, _) => message
  }

  /**
   * `isRetryableError`: a string is matched as written against `network`,
   * `timeout` and `CORS`; an object's message is lower-cased and matched
   * against `network`, `timeout`, `cors` and `fetch`.
   */
  function IsRetryableError(e: ErrorInput): (r: bool)
    ensures e.Message? ==>
      (r <==> Contains(e.text, "network") || Contains(e.text, "timeout") || Contains(e.text, "CORS"))
    ensures e.ErrorObject? ==>
      (r <==> || Contains(ToLower(e.message), "network") || Contains(ToLower(e.message), "timeout")
              || Contains(ToLower(e.message), "cors") || Contains(ToLower(e.message), "fetch"))
  {
    match e
    case Message(text) =>
      Contains(text, "network") || Contains(text, "timeout") || Contains(text, "CORS")
    case ErrorObject(message, _) =>
      var lowered := ToLower(message);
      Contains(lowered, "network") || Contains(lowered, "timeout") || Contains(lowered, "cors") || Contains(lowered, "fetch")
  }

  /** Whatever a string reports as retryable, an `Error` with that message does too. */
  lemma StringRetryableImpliesObjectRetryable(text: string, code: Option<string>)
    requires IsRetryableError(Message(text))
    ensures IsRetryableError(ErrorObject(text, code))
  {
    if Contains(text, "network") {
      ContainsToLower(text, "network");
      assert ToLower("network") == "network";
    } else if Contains(text, "timeout") {
      ContainsToLower(text, "timeout");
      assert ToLower("timeout") == "timeout";
    } else {
      ContainsToLower(text, "CORS");
      assert ToLower("CORS") == "cors";
    }
  }

  /** The string path sees case and the object path does not: `"cors"` and `"fetch"` differ. */
  lemma RetryableCaseSensitivity()
    ensures !IsRetryableError(Message("cors"))
    ensures IsRetryableError(ErrorObject("cors", None))
    ensures !IsRetryableError(Message("fetch"))
    ensures IsRetryableError(ErrorObject("Fetch", None))
  {
    assert OccursAt("cors", "cors", 0);
    assert ToLower("cors") == "cors";
    assert ToLower("Fetch") == "fetch";
    assert OccursAt("fetch", "fetch", 0);
    assert !OccursAt("fetch", "CORS", 0) && !OccursAt("fetch", "CORS", 1);
  }

  /** The object path is insensitive to the case of the message. */
  lemma ObjectRetryableIgnoresCase(message: string, code: Option<string>)
    ensures IsRetryableError(ErrorObject(ToLower(message), code)) == IsRetryableError(ErrorObject(message, code))
  {
    ToLowerIdempotent(message);
  }

  /** The record `reportError` publishes. */
  function ErrorInfoOf(e: ErrorInput, context: Option<string>, now: int): (info: ErrorInfo)
    ensures info.message == MessageOf(e)
    ensures info.retryable == IsRetryableError(e)
    ensures info.timestamp == now
    ensures e.Message? ==> info.code == None && info.details == ContextDetails(context)
    ensures e.ErrorObject? ==> info.code == e.code && info.details == ObjectDetails(e)
  {
    ErrorInfo(
      MessageOf(e),
      if e.ErrorObject? then e.code else None,
      if e.ErrorObject? then ObjectDetails(e) else ContextDetails(context),
      now,
      IsRetryableError(e))
  }

  class ErrorBoundaryService {
    /** The value of the error subject: `None` is `null`. */
    var current: Option<ErrorInfo>

    /** The subject starts with `null`. */
    constructor()
      ensures current == None
    {
      current := None;
    }

    /** `reportError`: the reported error becomes the current one. */
    method ReportError(e: ErrorInput, context: Option<string>, now: int)
      modifies this
      ensures current == Some(ErrorInfoOf(e, context, now))
    {
      current := Some(ErrorInfoOf(e, context, now));
    }

    /** `clearError`. */
    method ClearError()
      modifies this
      ensures current == None
    {
      current := None;
    }

    /** `getCurrentError`: reads the current value and changes nothing. */
    method GetCurrentError() returns (r: Option<ErrorInfo>)
      ensures r == current
    {
      r := current;
    }
  }

  /** A report followed by a read gives back a non-null error carrying the reported message. */
  method ReportThenRead(service: ErrorBoundaryService, e: ErrorInput, now: int) returns (r: Option<ErrorInfo>)
    modifies service
    ensures r.Some? && r.value.message == MessageOf(e) && r.value.retryable == IsRetryableError(e)
  {
    service.ReportError(e, None, now);
    r := service.GetCurrentError();
  }

  /** A clear followed by a read gives back `null`, whatever was reported before. */
  method ClearThenRead(service: ErrorBoundaryService) returns (r: Option<ErrorInfo>)
    modifies service
    ensures r == None
  {
    service.ClearError();
    r := service.GetCurrentError();
  }
}
