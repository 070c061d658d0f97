# friendly-captcha-go, modelled in Dafny

This project models the server-side core of the Friendly Captcha Go SDK:

- building a `Client` from functional options: the API key, sitekey, strict flag and API endpoint, including the path stripping of the deprecated siteverify-endpoint option;
- one verification call, which turns each way an exchange with the siteverify API can end into a `VerifyResult`;
- the acceptance policy on that result (`ShouldAccept`, `ShouldReject`) and its diagnostics (`WasAbleToVerify`, `IsRequestError`, `IsErrorDueToClientError`). Outside strict mode, the policy lets a submission through (fails open) when the verification service itself cannot be used.

Modules:

- `Wrappers`: `Option` and `Result`.
- `Errors` (errors.go): the three sentinel errors, the error kinds a result can carry, `errors.Is` on them, and the API's error codes.
- `Wire` (wire.go): the request and response bodies.
- `Results` (result.go): `VerifyResult` and the acceptance policy, as pure predicates. The policy is proved equal to a table by error kind.
- `Verify` (verify.go): `VerifyCaptchaResponse` as a method that fills the result step by step and returns early on each failure. It is proved equal to the function `Interpret`, and end-to-end lemmas connect each kind of exchange outcome to the policy's decision.
- `Urls`: the part of Go's `net/url.Parse` that `WithSiteverifyEndpoint` relies on.
- `Clients` (client.go): a `Client` class whose methods are the option closures, and `NewClient` with its option loop. The loop is proved against the pure `Build`/`ApplyAll`, and the ordering properties are lemmas about those functions.
- `ClientExamples`: the cases of client_options_test.go, stated about the model.

Environment and I/O:

- JSON encoding and decoding, building the HTTP request and the HTTP transport are all one parameter: a function `exchange` from the request the client would send to an `Exchange`. An `Exchange` says at which step the attempt stopped: `MarshalFailed`, `RequestBuildFailed`, `TransportFailed`, or `Responded(status, decoding)`.
- The `ShouldAccept` panic ("implementation error") becomes the precondition `Decidable`. `Interpret` proves that every result a verification produces meets it.

Not every failure fails open:

- Outside strict mode, request errors and client errors fail open (result.go:49-54).
- The request-creation error rejects in every mode (result.go:55-56; the comment at errors.go:5-6).
- `Results.CreationErrorRejects` states this.

## Model

| member | source | states |
|---|---|---|
| Errors.Wrapped | errors.go:7-15 | every non-nil error kind wraps exactly one of the three sentinels under `errors.Is` |
| Results.ShouldAcceptMatchesTable | result.go:41-65 | `ShouldAccept`, written in the code's order of tests, equals the acceptance table by error kind: no error → verdict; request error → `!strict`; creation error → reject unless verified; client error → verdict on status 200, else `!strict` |
| Results.DecidableExactlyAvoidsPanic | result.go:59-64 | the precondition of `ShouldAccept` excludes exactly the results with no verdict and no error, i.e. those that reach the panic |
| Results.WasAbleToVerifyExactly | result.go:99-101 | `WasAbleToVerify` holds exactly when the status is 200 and the error is not a request error |
| Results.VerifiedFollowsVerdict | result.go:42-44 | with a verdict, `ShouldAccept` is the response's success flag, whatever the strict flag |
| Results.StrictRejectsUnverified | result.go:45-48 | without a verdict, strict mode rejects every error kind |
| Results.NonStrictFailsOpen | result.go:49-54 | without a verdict and outside strict mode, request errors and client errors are accepted |
| Results.CreationErrorRejects | result.go:55-56 | without a verdict, the creation error is rejected even outside strict mode |
| Results.ShouldRejectNegatesAccept | result.go:67-70 | `ShouldReject` is the negation of `ShouldAccept` |
| Results.DiagnosticsExclusive | result.go:72-84 | both diagnostics are false without an error, never both true, and each holds exactly for its error kind |
| Verify.RequestFor | verify.go:18-21 | the request body carries the token as `response` and the client's sitekey, and the API key header is the client's key |
| Verify.Interpret | verify.go:22-68 | every result keeps the client's strict flag, carries an error or has status 200 (so `ShouldAccept` never panics), and is successful only without an error |
| Verify.VerifyCaptchaResponse | verify.go:16-69 | the step-by-step fill with early returns produces `Interpret` of the environment's answer to exactly the request built from the token, the sitekey and the API key |
| Verify.CreationFailureResult | verify.go:24-36 | a marshal or request-construction failure gives the creation error, status -1 and the zero response |
| Verify.TransportFailureResult | verify.go:42-46 | a transport failure gives a request error with status -1 |
| Verify.DecodeFailureResult | verify.go:48-58 | an undecodable body gives a request error carrying the HTTP status, whatever the status: decoding is checked before the status |
| Verify.ClientErrorResult | verify.go:60-64 | a decoded non-200 response gives the client error carrying the status, with the response and `Success` at their zero values |
| Verify.VerdictResult | verify.go:66-68 | a decoded 200 response gives no error, status 200, the decoded body and its success flag |
| Verify.AttemptDecision | verify.go:16-69 | end to end: the result of every attempt is decidable, is accepted exactly when a 200 verdict says success or when a non-creation failure happens outside strict mode, and `ShouldReject` is the negation |
| Verify.AttemptDiagnostics | verify.go:42-64 | end to end: `WasAbleToVerify` holds exactly for a decoded 200 response; the client-error diagnostic holds exactly for a decoded non-200 response; the request-error diagnostic holds exactly for a transport or decode failure |
| Urls.ParseHost | client.go:124 | a host that parses is returned unchanged and holds no character that must be escaped in a host name |
| Urls.ParseHostRefusesSpace | client.go:124 | a host containing a space (and no colon) is refused with the invalid-host error |
| Urls.ParseSchemeHostPath | client.go:124 | `scheme://host` followed by a plain path (query and fragment included) parses to the lower-cased scheme and the host |
| Clients.Client.constructor | client.go:43-46 | a new client holds the default settings: empty key and sitekey, the global endpoint, not strict |
| Clients.Client.SetAPIKey | client.go:67-72 | writes the API key and nothing else |
| Clients.Client.SetSitekey | client.go:75-80 | writes the sitekey and nothing else |
| Clients.Client.SetStrictMode | client.go:85-90 | writes the strict flag and nothing else |
| Clients.Client.SetAPIEndpoint | client.go:94-107 | stores the resolved endpoint, or returns the empty-endpoint error with the client unchanged |
| Clients.Client.SetSiteverifyEndpoint | client.go:112-134 | stores the endpoint `SiteverifyAPIEndpoint` computes, or returns its error with the client unchanged |
| Clients.Client.Apply | client.go:51 | calling an option's closure on the client has the effect `ApplyOption` describes, and a failing option changes nothing |
| Clients.NewClient | client.go:38-64 | returns a newly allocated client exactly when `Build(opts)` succeeds, holding its settings; otherwise no client and `Build`'s error |
| Clients.ApplyAllAppend | client.go:48-55 | applying `xs + ys` is applying `xs`, then `ys` to its result, unless `xs` failed |
| Clients.ResolveAPIEndpointCases | client.go:96-105 | "global" and "eu" map to their fixed URLs, only "" fails, any other string is stored verbatim, and the stored value is never empty |
| Clients.ResolveAPIEndpointIdempotent | client.go:96-104 | resolving an already resolved endpoint returns it unchanged |
| Clients.SiteverifyAPIEndpointCases | client.go:112-133 | "" fails, the shorthands go through `WithAPIEndpoint`, a URL that fails to parse gives its parse error, and otherwise scheme + "://" + host is stored |
| Clients.SiteverifyStripsPath | client.go:124-132 | for `scheme://host/path` the stored endpoint is the lower-cased scheme, "://" and the host, so the path is dropped |
| Clients.EndpointOptionsNonEmpty | client.go:101-102 | neither endpoint option ever stores the empty string |
| Clients.SettersNeverFail | client.go:67-90 | `WithAPIKey`, `WithSitekey` and `WithStrictMode` never fail and each writes exactly its own field |
| Clients.OptionWritesOnlyItsField | client.go:66-134 | a successful library option leaves every field but its own unchanged |
| Clients.UntouchedFieldKept | client.go:48-55 | library options that do not write a field leave it as it was |
| Clients.LastWins | client.go:48-55 | the last option that writes a field decides the field's value |
| Clients.FirstErrorAborts | client.go:49-54 | the first failing option decides the error, and later options are not applied |
| Clients.EndpointStaysNonEmpty | client.go:45 | once the endpoint is non-empty, no sequence of the library's options makes it empty |
| Clients.BuildChecksAPIKey | client.go:57-61 | a built client has a non-empty API key and endpoint, and options that leave the key empty make construction fail |
| Clients.NoAPIKeyOptionFails | client.go:57-61 | without a `WithAPIKey` option among the library's options, construction always fails |
| Clients.DefaultEndpoint | client.go:39-46 | without an endpoint option among the library's options, a built client uses "https://global.frcapi.com" |
| ClientExamples.BuildKeyThen | client_options_test.go:48-51 | a client built from the test key followed by one option holds what that option makes of the key-only settings |
| ClientExamples.WithAPIEndpointExamples | client_options_test.go:17-41 | the `WithAPIEndpoint` test table: the two shorthands, two full domains kept verbatim, and the empty string refused |
| ClientExamples.StripsPathLower | client.go:124-132 | for a lower-case scheme, the siteverify option stores the URL's scheme, "://" and host |
| ClientExamples.SiteverifyGlobalPath | client_options_test.go:84-87 | the global siteverify URL is cut to "https://global.frcapi.com" |
| ClientExamples.SiteverifyEUPath | client_options_test.go:141-145 | the EU siteverify URL is cut to "https://eu.frcapi.com" |
| ClientExamples.SiteverifyCustomNoPath | client_options_test.go:89-92 | a URL with no path is kept |
| ClientExamples.SiteverifyLocalhostPath | client_options_test.go:94-97 | a localhost URL with a port and a path keeps the port and drops the path |
| ClientExamples.SiteverifyLocalhostNoPath | client_options_test.go:99-102 | a localhost URL with a port and no path is kept |
| ClientExamples.SiteverifyPortPath | client_options_test.go:104-107 | an https URL with a port and a path keeps the port and drops the path |
| ClientExamples.WithSiteverifyEndpointExamples | client_options_test.go:73-113 | the deprecated-option test table, plus the backward-compatibility case, give the expected endpoints, and the empty string is refused |
| ClientExamples.DefaultValueExample | client_options_test.go:148-156 | a client built from just an API key uses the global endpoint |
| ClientExamples.OverrideExample | client_options_test.go:158-170 | a siteverify URL followed by `WithAPIEndpoint("eu")` ends on the EU endpoint: the last option wins |

## Left out

- The HTTP transport, the request context, timeouts and closing the body (verify.go:42-47) are the `exchange` parameter. It yields `TransportFailed` or a status with a decoding.
- JSON marshal and decode (verify.go:26, 50-52) are outcomes of `exchange` too. The `omitempty` tag on the sitekey (wire.go:11) is therefore not modelled.
- The request headers and the SDK version string (verify.go:38-40, version.go) are not modelled. Only the API key travels with the request, in `HttpRequest.apiKey`.
- The request URL is not part of `HttpRequest`. verify.go:32 reads a `SiteverifyEndpoint` field that this revision of client.go does not declare.
- Options the caller writes are not modelled. In Go, `ClientOption` is the open function type `func(*Client) error` (client.go:9-10), and `NewClient` runs any such closure (client.go:49-51). `ClientOption` here has only the library's five options. `Clients.EndpointStaysNonEmpty`, `Clients.BuildChecksAPIKey` (its endpoint half), `Clients.NoAPIKeyOptionFails`, `Clients.DefaultEndpoint`, `Clients.UntouchedFieldKept`, `Clients.OptionWritesOnlyItsField` and `Clients.LastWins` hold for those five options only. A closure of the caller's own can empty the endpoint or set the API key.
- The `HTTPClient` field of `Client` (client.go:24-26, 44) is not modelled. No option sets it, and the transport is a parameter.
- The error message texts (`fmt.Errorf` wrapping) are not modelled. Errors are modelled as their kind, plus the status for a client error. The client error's decoded error body is not carried.
- `Urls.Parse` models only the part of `net/url.Parse` that `WithSiteverifyEndpoint` relies on:
  - it covers control characters, the scheme, the "#" and "?" cuts, opaque URLs, a colon in the first path segment, the `//` authority, user info before "@", bracketed hosts, port digits, and the refusal of host characters that must be escaped (a space, `{`, `|`, `\`, `^`, a backtick, and the rest of Go's list);
  - it leaves out percent-decoding, user-info validation and IPv6 zones. A `%` in the host or path is therefore never refused (so "http://a%zz/x" is accepted where Go refuses it), and `Urls.IsPlainHost` and `Urls.IsPlainPath` exclude `%`;
  - it returns only the scheme and the host.
- `Wire.ChallengeData.timestamp` is kept as text. Time parsing is not modelled.
- wire_risk_intelligence.go, example/main.go and client_test.go are not part of this model: a JSON schema without logic, a demo server, and an integration test against a mock server.
- The accessors `RequestError`, `Strict`, `Response` and `HTTPStatusCode` (result.go:26-94) are the fields of the `VerifyResult` datatype.
- Verify.VerifyCaptchaResponse: `exchange` is consulted once per call, including for the two creation failures on which Go sends no request. The model states nothing about the number of HTTP requests.
