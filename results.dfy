/**
 * The result of one verification and the acceptance policy over it (result.go).
 * The Go accessors `RequestError`, `Strict`, `Response` and `HTTPStatusCode`
 * are this datatype's destructors `err`, `strict`, `response` and `status`.
 */
module Results {
  import opened Errors
  import opened Wire

  /**
   * `success` and `status` are the record's public fields; `response`,
   * `strict` and `err` are private in Go and read through the accessors.
   */
  datatype VerifyResult = VerifyResult(
    success: bool,
    status: int,
    response: VerifyResponse,
    strict: bool,
    err: VerifyError)

  /** Go's zero value `VerifyResult{}`. */
  const ZeroResult: VerifyResult := VerifyResult(false, 0, ZeroResponse, false, NoErr)

  /** An error occurred sending the request or interpreting the response. */
  predicate IsRequestError(r: VerifyResult)
  {
    r.err != NoErr && Is(r.err, ErrVerificationRequest)
  }

  /** The service answered, but with a non-200 status (usually a wrong API key). */
  predicate IsErrorDueToClientError(r: VerifyResult)
  {
    r.err != NoErr && Is(r.err, ErrVerificationFailedDueToClientError)
  }

  /** The service gave a verdict on the captcha. */
  predicate WasAbleToVerify(r: VerifyResult)
  {
    r.status == 200 && !IsRequestError(r)
  }

  /**
   * The results on which `ShouldAccept` returns rather than panics with its
   * "implementation error" message: an error is present or the status is 200.
   */
  predicate Decidable(r: VerifyResult)
  {
    r.err != NoErr || r.status == 200
  }

  /**
   * Whether to let the request through, in the code's order: a verdict wins;
   * otherwise strict mode rejects every error; otherwise request errors and
   * client errors fail open and any other error (the creation error) rejects.
   */
  predicate ShouldAccept(r: VerifyResult)
    requires Decidable(r)
  {
    if WasAbleToVerify(r) then
      r.response.success
    else if r.err != NoErr then
      if r.strict then
        false
      else if Is(r.err, ErrVerificationRequest) || Is(r.err, ErrVerificationFailedDueToClientError) then
        true
      else
        false
    else
      assert false; false
  }

  predicate ShouldReject(r: VerifyResult)
    requires Decidable(r)
  {
    !ShouldAccept(r)
  }

  /**
   * The acceptance policy written as a table over the error kind, independent
   * of the code's order of tests.
   */
  predicate AcceptanceTable(r: VerifyResult)
    requires Decidable(r)
  {
    match r.err
    case NoErr => r.response.success
    case RequestErr => !r.strict
    case CreatingErr => r.status == 200 && r.response.success
    case ClientErr(_) => if r.status == 200 then r.response.success else !r.strict
  }

  lemma ShouldAcceptMatchesTable(r: VerifyResult)
    requires Decidable(r)
    ensures ShouldAccept(r) == AcceptanceTable(r)
  {
  }

  /** The precondition excludes exactly the inputs that reach the panic. */
  lemma DecidableExactlyAvoidsPanic(r: VerifyResult)
    ensures !Decidable(r) <==> !WasAbleToVerify(r) && r.err == NoErr
  {
  }

  lemma WasAbleToVerifyExactly(r: VerifyResult)
    ensures WasAbleToVerify(r) <==> r.status == 200 && !r.err.RequestErr?
  {
  }

  /** With a verdict, the decision is the verdict, whatever the strict flag. */
  lemma VerifiedFollowsVerdict(r: VerifyResult, strict: bool)
    requires WasAbleToVerify(r)
    ensures Decidable(r) && Decidable(r.(strict := strict))
    ensures ShouldAccept(r) == r.response.success
    ensures ShouldAccept(r.(strict := strict)) == ShouldAccept(r)
  {
  }

  /** Strict mode rejects every unverified result that carries an error. */
  lemma StrictRejectsUnverified(r: VerifyResult)
    requires !WasAbleToVerify(r) && r.err != NoErr && r.strict
    ensures Decidable(r) && !ShouldAccept(r)
  {
  }

  /** Outside strict mode, request errors and client errors fail open. */
  lemma NonStrictFailsOpen(r: VerifyResult)
    requires !WasAbleToVerify(r) && !r.strict
    requires r.err.RequestErr? || r.err.ClientErr?
    ensures Decidable(r) && ShouldAccept(r)
  {
  }

  /** The creation error rejects even outside strict mode. */
  lemma CreationErrorRejects(r: VerifyResult)
    requires !WasAbleToVerify(r) && r.err == CreatingErr
    ensures Decidable(r) && !ShouldAccept(r)
  {
  }

  lemma ShouldRejectNegatesAccept(r: VerifyResult)
    requires Decidable(r)
    ensures ShouldReject(r) <==> !ShouldAccept(r)
  {
  }

  /** Both diagnostics are false without an error, and never both true. */
  lemma DiagnosticsExclusive(r: VerifyResult)
    ensures r.err == NoErr ==> !IsRequestError(r) && !IsErrorDueToClientError(r)
    ensures !(IsRequestError(r) && IsErrorDueToClientError(r))
    ensures IsRequestError(r) <==> r.err == RequestErr
    ensures IsErrorDueToClientError(r) <==> r.err.ClientErr?
  {
  }
}
