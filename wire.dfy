/** The request and response bodies of the siteverify endpoint (wire.go). */
module Wire {
  import opened Wrappers
  import opened Errors

  /** The request body: the widget's response token and the optional sitekey ("" when unset). */
  datatype VerifyRequest = VerifyRequest(response: string, sitekey: string)

  /** Information about the solved challenge; the timestamp is kept as its RFC 3339 text. */
  datatype ChallengeData = ChallengeData(timestamp: string, origin: string)

  /** The `data` object of a response. */
  datatype ResponseData = ResponseData(challenge: ChallengeData)

  /** The `error` object of a response. */
  datatype ResponseError = ResponseError(errorCode: ErrorCode, detail: string)

  /** The response body; `data` and `error` are absent unless the service sends them. */
  datatype VerifyResponse = VerifyResponse(
    success: bool,
    data: Option<ResponseData>,
    error: Option<ResponseError>)

  /** Go's zero value of `VerifyResponse`. */
  const ZeroResponse: VerifyResponse := VerifyResponse(false, None, None)
}
