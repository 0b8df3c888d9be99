/** The SDK's error vocabulary and the exceptions that can leave a call
    into the HTTP collaborator. */
module Errors {

  /** The fixed vocabulary of `RealityDefenderError.code`. */
  datatype ErrorCode =
    | Unauthorized
    | ServerError
    | UploadFailed
    | InvalidFile
    | NotFound
    | Timeout

  /** The wire spelling of each code. */
  function CodeName(c: ErrorCode): string {
    match c
    case Unauthorized => "unauthorized"
    case ServerError => "server_error"
    case UploadFailed => "upload_failed"
    case InvalidFile => "invalid_file"
    case NotFound => "not_found"
    case Timeout => "timeout"
  }

  /** Distinct codes have distinct wire spellings, so a caller comparing
      `error.code` strings tells every kind apart. */
  lemma CodeNameInjective(c1: ErrorCode, c2: ErrorCode)
    ensures CodeName(c1) == CodeName(c2) <==> c1 == c2
  {
  }

  /** The SDK's own exception: a message and a code, in the constructor's
      argument order. */
  datatype RealityDefenderError = RealityDefenderError(message: string, code: ErrorCode)

  /** What a raised exception looks like to an `except` clause:
      - `Domain`: a `RealityDefenderError`;
      - `Generic`: any other subclass of `Exception`, known by `str(e)`;
      - `BaseOnly`: a `BaseException` that is not an `Exception` (for
        instance `asyncio.CancelledError`), which `except Exception`
        does not catch. */
  datatype Exception =
    | Domain(error: RealityDefenderError)
    | Generic(message: string)
    | BaseOnly(message: string)

  /** A step that either returns a value or raises. */
  datatype Outcome<+T> = Ok(value: T) | Raise(exception: Exception)
}
