/** The error value of the edge worker (apps/worker/src/errors.ts): a closed
    set of error codes, the `AppError` record and the JSON body
    that is sent to the client. */
module Errors {
  import opened Wrappers

  /** The five error codes; no other code can be constructed. */
  datatype ErrorCode = ForbiddenHost | MissingParam | NoImageFound | UpstreamFailed | InvalidUrl

  /** Every code there is. */
  function AllCodes(): set<ErrorCode> {
    {ForbiddenHost, MissingParam, NoImageFound, UpstreamFailed, InvalidUrl}
  }

  /** The string literal a code is written as on the wire. */
  function CodeName(c: ErrorCode): (s: string)
    ensures |s| > 2 && s[..2] == "E_"
  {
    match c
    case ForbiddenHost => "E_FORBIDDEN_HOST"
    case MissingParam => "E_MISSING_PARAM"
    case NoImageFound => "E_NO_IMAGE_FOUND"
    case UpstreamFailed => "E_UPSTREAM_FAILED"
    case InvalidUrl => "E_INVALID_URL"
  }

  /** Reads a wire string back as a code; `None` for any string that is not
      one of the five literals. */
  function ParseCode(s: string): (r: Option<ErrorCode>)
    ensures r.Some? ==> CodeName(r.value) == s
  {
    if s == "E_FORBIDDEN_HOST" then Some(ForbiddenHost)
    else if s == "E_MISSING_PARAM" then Some(MissingParam)
    else if s == "E_NO_IMAGE_FOUND" then Some(NoImageFound)
    else if s == "E_UPSTREAM_FAILED" then Some(UpstreamFailed)
    else if s == "E_INVALID_URL" then Some(InvalidUrl)
    else None
  }

  /** The code type is a closed enumeration of exactly five distinct codes,
      each with its own wire name, and every wire name reads back as the
      code it came from. */
  lemma ErrorCodeIsClosed()
    ensures forall c: ErrorCode :: c in AllCodes()
    ensures |AllCodes()| == 5
    ensures forall c: ErrorCode :: ParseCode(CodeName(c)) == Some(c)
    ensures forall c, d: ErrorCode :: CodeName(c) == CodeName(d) ==> c == d
  {
    var all := AllCodes();
    assert all == {ForbiddenHost} + {MissingParam} + {NoImageFound} + {UpstreamFailed} + {InvalidUrl};
    assert |{ForbiddenHost} + {MissingParam}| == 2;
    assert |{ForbiddenHost} + {MissingParam} + {NoImageFound}| == 3;
    assert |{ForbiddenHost} + {MissingParam} + {NoImageFound} + {UpstreamFailed}| == 4;
    forall c: ErrorCode ensures c in all && ParseCode(CodeName(c)) == Some(c) {
      match c
      case ForbiddenHost =>
      case MissingParam =>
      case NoImageFound =>
      case UpstreamFailed =>
      case InvalidUrl =>
    }
  }

  /** The `AppError` class as a value. `code`, `status` and `hint` are
      read-only fields set by the constructor, and `hint` may be absent.
      `message` is the one the constructor hands to `Error`; it is taken as
      fixed at construction. */
  datatype AppError = AppError(code: ErrorCode, status: int, message: string, hint: Option<string>)

  /** The JSON error body: exactly the keys `code`, `message` and `hint`; the
      status never appears in it, and an absent hint becomes "". */
  function ToJsonError(e: AppError): (body: map<string, string>)
    ensures body.Keys == {"code", "message", "hint"}
    ensures ParseCode(body["code"]) == Some(e.code)
    ensures body["message"] == e.message
    ensures e.hint.Some? ==> body["hint"] == e.hint.value
    ensures e.hint.None? ==> body["hint"] == ""
  {
    ErrorCodeIsClosed();
    map["code" := CodeName(e.code), "message" := e.message, "hint" := e.hint.GetOr("")]
  }

  /** The body does not depend on the HTTP status. */
  lemma JsonErrorIgnoresStatus(e: AppError, status: int)
    ensures ToJsonError(e.(status := status)) == ToJsonError(e)
  {
  }

  /** An absent hint and an empty hint give the same body. */
  lemma JsonErrorAbsentHintIsEmpty(e: AppError)
    ensures ToJsonError(e.(hint := None)) == ToJsonError(e.(hint := Some("")))
  {
  }

  /** Apart from the status and the absent/empty hint distinction, the body
      determines the error: two errors with the same status whose bodies agree
      are the same error. */
  lemma JsonErrorDeterminesError(e1: AppError, e2: AppError)
    requires e1.status == e2.status
    requires e1.hint != Some("") && e2.hint != Some("")
    requires ToJsonError(e1) == ToJsonError(e2)
    ensures e1 == e2
  {
  }
}
