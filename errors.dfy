/**
 * The three sentinel errors a verification can wrap, and the error codes the
 * verification API may return in its `error` object (errors.go).
 */
module Errors {

  /** The sentinel values that `errors.Is` compares a returned error against. */
  datatype Sentinel =
    | ErrCreatingVerificationRequest
    | ErrVerificationRequest
    | ErrVerificationFailedDueToClientError

  /**
   * The `err` field of a verification result. Every non-nil error the
   * verifier returns wraps exactly one sentinel; the client-error kind also
   * records the HTTP status that appears in its message.
   */
  datatype VerifyError =
    | NoErr
    | CreatingErr
    | RequestErr
    | ClientErr(status: int)

  /** Go's `errors.Is(e, target)`: a nil error wraps nothing. */
  predicate Is(e: VerifyError, target: Sentinel)
  {
    match e
    case NoErr => false
    case CreatingErr => target == ErrCreatingVerificationRequest
    case RequestErr => target == ErrVerificationRequest
    case ClientErr(_) => target == ErrVerificationFailedDueToClientError
  }

  /** The sentinel a non-nil error wraps. */
  function Wrapped(e: VerifyError): (s: Sentinel)
    requires e != NoErr
    ensures Is(e, s)
    ensures forall t :: Is(e, t) ==> t == s
  {
    match e
    case CreatingErr => ErrCreatingVerificationRequest
    case RequestErr => ErrVerificationRequest
    case ClientErr(_) => ErrVerificationFailedDueToClientError
  }

  /** The `error_code` values of the verification API; any other string may arrive as well. */
  type ErrorCode = string

  const ErrorCodeAuthRequired: ErrorCode := "auth_required"
  const ErrorCodeAuthInvalid: ErrorCode := "auth_invalid"
  const ErrorCodeSitekeyInvalid: ErrorCode := "sitekey_invalid"
  const ErrorCodeResponseMissing: ErrorCode := "response_missing"
  const ErrorCodeResponseInvalid: ErrorCode := "response_invalid"
  const ErrorCodeResponseTimeout: ErrorCode := "response_timeout"
  const ErrorCodeResponseDuplicate: ErrorCode := "response_duplicate"
  const ErrorCodeBadRequest: ErrorCode := "bad_request"
}
