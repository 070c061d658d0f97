/**
 * `Client.VerifyCaptchaResponse` (verify.go): one request to the siteverify
 * endpoint, and the mapping of what happened to a `VerifyResult`.
 *
 * JSON encoding, building the HTTP request, the transport and JSON decoding
 * are the environment: a function from the request to the `Exchange` that
 * says at which step the attempt stopped.
 */
module Verify {
  import opened Errors
  import opened Wire
  import opened Results
  import Clients

  /** What the client hands to the environment: the `X-Api-Key` header and the body. */
  datatype HttpRequest = HttpRequest(apiKey: string, body: VerifyRequest)

  /** The result of decoding a response body. */
  datatype Decoding = DecodeFailed | Decoded(body: VerifyResponse)

  /** How far one verification attempt got. */
  datatype Exchange =
    | MarshalFailed                                  // json.Marshal of the body failed
    | RequestBuildFailed                             // http.NewRequestWithContext failed
    | TransportFailed                                // HTTPClient.Do failed
    | Responded(status: int, decoding: Decoding)     // a response arrived with this status

  /** The request `VerifyCaptchaResponse` sends for a token. */
  function RequestFor(apiKey: string, sitekey: string, captchaResponse: string): (req: HttpRequest)
    ensures req.body.response == captchaResponse && req.body.sitekey == sitekey && req.apiKey == apiKey
  {
    HttpRequest(apiKey, VerifyRequest(captchaResponse, sitekey))
  }

  /**
   * The result for an attempt under the client's strict flag. Every result
   * keeps the flag, is one `ShouldAccept` decides without panicking, and
   * reports success only without an error.
   */
  function Interpret(strict: bool, x: Exchange): (r: VerifyResult)
    ensures r.strict == strict
    ensures Decidable(r)
    ensures r.success ==> r.err == NoErr
  {
    var initial := ZeroResult.(strict := strict, status := -1);
    match x
    case MarshalFailed => initial.(err := CreatingErr)
    case RequestBuildFailed => initial.(err := CreatingErr)
    case TransportFailed => initial.(err := RequestErr)
    case Responded(status, DecodeFailed) => initial.(status := status, err := RequestErr)
    case Responded(status, Decoded(vr)) =>
      if status != 200 then initial.(status := status, err := ClientErr(status))
      else initial.(status := status, response := vr, success := vr.success)
  }

  /**
   * Fills the result step by step, returning at the first failure. The result
   * is `Interpret` of the environment's answer to exactly the request built
   * from the token and the client's sitekey and API key.
   */
  method VerifyCaptchaResponse(frc: Clients.Client, captchaResponse: string, exchange: HttpRequest -> Exchange)
    returns (result: VerifyResult)
    ensures result == Interpret(frc.strict, exchange(RequestFor(frc.apiKey, frc.sitekey, captchaResponse)))
    ensures result.strict == frc.strict && Decidable(result)
  {
    result := ZeroResult;
    var reqBody := VerifyRequest(captchaResponse, frc.sitekey);
    result := result.(strict := frc.strict);
    result := result.(status := -1);
    var outcome := exchange(HttpRequest(frc.apiKey, reqBody));
    if outcome.MarshalFailed? {
      result := result.(err := CreatingErr);
      return;
    }
    if outcome.RequestBuildFailed? {
      result := result.(err := CreatingErr);
      return;
    }
    if outcome.TransportFailed? {
      result := result.(err := RequestErr);
      return;
    }
    result := result.(status := outcome.status);
    if outcome.decoding.DecodeFailed? {
      result := result.(err := RequestErr);
      return;
    }
    var vr := outcome.decoding.body;
    if outcome.status != 200 {
      result := result.(err := ClientErr(outcome.status));
      return;
    }
    result := result.(response := vr);
    result := result.(success := vr.success);
  }

  /** Failing to encode the body or to build the request is the creation error, with status -1 and nothing decoded. */
  lemma CreationFailureResult(strict: bool, x: Exchange)
    requires x.MarshalFailed? || x.RequestBuildFailed?
    ensures Interpret(strict, x).err == CreatingErr
    ensures Interpret(strict, x).status == -1
    ensures Interpret(strict, x).response == ZeroResponse && !Interpret(strict, x).success
  {
  }

  /** A transport failure is a request error and the status stays -1. */
  lemma TransportFailureResult(strict: bool)
    ensures Interpret(strict, TransportFailed).err == RequestErr
    ensures Interpret(strict, TransportFailed).status == -1
    ensures Interpret(strict, TransportFailed).response == ZeroResponse && !Interpret(strict, TransportFailed).success
  {
  }

  /** An undecodable body is a request error under any status, 200 or not: decoding is checked first. */
  lemma DecodeFailureResult(strict: bool, status: int)
    ensures Interpret(strict, Responded(status, DecodeFailed)).err == RequestErr
    ensures Interpret(strict, Responded(status, DecodeFailed)).status == status
    ensures !Interpret(strict, Responded(status, DecodeFailed)).success
  {
  }

  /** A decoded non-200 response is the client error carrying the status, with the response left at its zero value. */
  lemma ClientErrorResult(strict: bool, status: int, vr: VerifyResponse)
    requires status != 200
    ensures Interpret(strict, Responded(status, Decoded(vr))).err == ClientErr(status)
    ensures Interpret(strict, Responded(status, Decoded(vr))).status == status
    ensures Interpret(strict, Responded(status, Decoded(vr))).response == ZeroResponse
    ensures !Interpret(strict, Responded(status, Decoded(vr))).success
  {
  }

  /** A decoded 200 response is a verdict: no error, and the decoded body and its success flag. */
  lemma VerdictResult(strict: bool, vr: VerifyResponse)
    ensures Interpret(strict, Responded(200, Decoded(vr))).err == NoErr
    ensures Interpret(strict, Responded(200, Decoded(vr))).status == 200
    ensures Interpret(strict, Responded(200, Decoded(vr))).response == vr
    ensures Interpret(strict, Responded(200, Decoded(vr))).success == vr.success
  {
  }

  /** The attempt yielded a verdict from the service. */
  predicate IsVerdict(x: Exchange)
  {
    x.Responded? && x.status == 200 && x.decoding.Decoded?
  }

  /** The acceptance decision per attempt: a verdict decides; the creation error rejects; every other failure fails open unless strict. */
  predicate AcceptsAttempt(strict: bool, x: Exchange)
  {
    if IsVerdict(x) then x.decoding.body.success
    else if x.MarshalFailed? || x.RequestBuildFailed? then false
    else !strict
  }

  /** End to end: what the policy of result.go decides for every attempt. */
  lemma AttemptDecision(strict: bool, x: Exchange)
    ensures Decidable(Interpret(strict, x))
    ensures ShouldAccept(Interpret(strict, x)) == AcceptsAttempt(strict, x)
    ensures ShouldReject(Interpret(strict, x)) == !AcceptsAttempt(strict, x)
  {
  }

  /** End to end: the diagnostics tell the three kinds of failure apart. */
  lemma AttemptDiagnostics(strict: bool, x: Exchange)
    ensures WasAbleToVerify(Interpret(strict, x)) <==> IsVerdict(x)
    ensures IsErrorDueToClientError(Interpret(strict, x)) <==>
      x.Responded? && x.status != 200 && x.decoding.Decoded?
    ensures IsRequestError(Interpret(strict, x)) <==> x.TransportFailed? || (x.Responded? && x.decoding.DecodeFailed?)
  {
  }
}
