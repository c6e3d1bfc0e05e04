# go-requester, modelled in Dafny

This project models the core of the Go HTTP request library `requester`. It covers three parts.

- **The request builder** (`request.go`). A `Request` draft is updated in place by request options (`WithMethod`, `WithHost`, `WithPath`, `WithURL`, `WithHeader`, `WithQuery`, `WithBody`, `WithForm`, `WithJSON`, `WithXML`, `WithContext`, `WithRequestLogger`, `WithResponseLogger`). `NewRequest` applies the options left to right and stops at the first failing one. It then defaults the method to GET, refuses a draft with neither host nor url, and resolves the body into a stream. It picks the address (the url, or host and path joined as they are) and defaults the context. Finally it asks the transport library for a request and writes the draft's headers and encoded query into it.
- **The client** (`client.go`). A `Client` holds a transport, default request options and request validators, configured by client options in `NewClient`. `Client.Do` runs these steps in order: build from the defaults followed by the call's options, run the validators, dump the request, send it once, dump the response when a response logger is set, and classify the status. Statuses 200 to 299 are success; any other is a bad-status error.
- **The error taxonomy** (`status_error.go`). There are six codes. A `statusError` record carries a code, an HTTP status and a message. `Error()` renders it as text, and `Code(err)` reads the code back from any error.

Files:

- `go_types.dfy` (module `GoTypes`): Go strings as byte sequences (`GoString`), `Option`, and `Ascii` for literals.
- `status_errors.dfy` (module `StatusErrors`): codes, `Error`, `Result`, `Code`, the `Error()` text and its round trip.
- `request_builder.dfy` (module `RequestBuilder`): the `Request` class and `NewRequest`. They are proved against the value functions `ApplyOption`, `ApplyAll`, `Prepare`, `Finalize` and `Build`.
- `request_properties.dfy` (module `RequestProperties`): what the builder promises, proved of those functions.
- `client_pipeline.dfy` (module `ClientPipeline`): the `Client` and `HttpClient` classes, `NewClient`, and the validator loop. They are proved against `ApplyClientOptions`, `NewClientConfig`, `FirstRejection`, `Classify` and `DoSpec`.
- `client_properties.dfy` (module `ClientProperties`): what the client promises, proved of those functions.

Library code the package calls but does not define is passed in as function values. The `Collaborators` datatype holds the JSON and XML encoders, `url.Values.Encode` and `http.NewRequestWithContext`. The `exchange` function of an `HttpClient` stands for the network. The `Sinks` datatype holds the request and response dumps and says whether each one fails. A Go `interface{}` argument is the closed datatype `Any`, with one case per dynamic type the package tests for and one case for every other type.

Where the code and its design description disagree, the model follows the code:

- `WithQuery` replaces the whole value list of each key it names; values are not accumulated across options (`QueryDoesNotAccumulate`).
- Encoder errors from `WithJSON`/`WithXML` are returned unchanged. The package never produces `CodeEncodingError` (`BuildErrorCodes`).
- Transport errors are returned unchanged, so `Code` reads them as `CodeUnknown` (`TransportErrorReturned`).
- `statusError` is declared with two fields but every construction site passes three (code, HTTP status, message). It is modelled with the three fields. `Error()` prints only code and message.
- The bad-status site names `CodeBadResponseCode`, which the package does not declare. It is taken to be `CodeBadResponseStatus` (2).

## Model

| member | source | states |
|---|---|---|
| StatusErrors.AllCodes | status_error.go:7-14 | the six codes are exactly the values 0 to 5 in declaration order, CodeUnknown being 0 |
| StatusErrors.Code | status_error.go:25-33 | nil gives CodeUnknown, a statusError gives its own code, any other error gives CodeUnknown |
| StatusErrors.DigitsRoundTrip | status_error.go:22 | the `%v` digits of a natural number are non-empty, all digits, and parse back to the number |
| StatusErrors.DecimalRoundTrip | status_error.go:22 | the `%v` rendering of an integer parses back to it and contains no space |
| StatusErrors.ErrorTextRoundTrip | status_error.go:21-23 | the text of `Error()` determines the code and the message it was made from |
| RequestBuilder.Overlay | request.go:133-140 | a per-key write of `top` into `base`: keys of `top` take its values, other keys of `base` keep theirs, no other key appears |
| RequestBuilder.OverlayKeys | request.go:81-83 | the `for k, v := range` loop writing map entries one key at a time, in any key order, ends with exactly `Overlay(base, top)` |
| RequestBuilder.SingleValued | request.go:124-131 | `header.Set(k, v)` for every entry stores the one-element list `[v]` under each key and adds no other key |
| RequestBuilder.ResolveBody | request.go:50-64 | nil gives no body; a reader, buffer, string or byte slice gives exactly its bytes; every other type (a `url.Values` among them) is refused with the invalid-body error, and only those are |
| RequestBuilder.AppendRawQuery | request.go:85-91 | the new raw query starts with the old one, then an `&` only if the old one was not empty, then the encoded query, and is exactly that long |
| RequestBuilder.ApplyAllAppend | request.go:35-41 | applying `a + b` is applying `a` and then `b` to its result, and a failure in `a` is the result |
| RequestBuilder.Request.constructor | request.go:30-33 | a fresh draft has empty header and query maps, every other field unset, and no built request |
| RequestBuilder.Request.Apply | request.go:96-205 | each option writes its field(s) of the draft as `ApplyOption` says, or fails and leaves the draft unchanged |
| RequestBuilder.Request.Resolve | request.go:43-73 | the method default, the missing-url check, the body switch, the address choice and the context default, as `Prepare` says |
| RequestBuilder.Request.Finish | request.go:43-91 | the finalizing steps match `Finalize`: errors of the transport library's constructor are wrapped as CodeUnknown with its text; otherwise the draft's headers and query are written into the built request |
| RequestBuilder.NewRequest | request.go:29-94 | the options are applied in order and the first failure is returned as it is with no request; otherwise the draft and the request are the ones `Build` gives |
| RequestProperties.FirstFailureAborts | request.go:35-41 | the first failing option's error is `NewRequest`'s result, whatever options follow it |
| RequestProperties.PrefixSucceeds | request.go:35-41 | a successful run of `a + b` passes through a successful run of `a` |
| RequestProperties.FieldUntouched | request.go:96-184 | options that do not write method, host, path, url or body leave that field as it was |
| RequestProperties.LastWriteWins | request.go:96-147 | after the options, method, host, path, url and body hold what the last option that wrote them put there |
| RequestProperties.CallOptionBeatsDefault | client.go:22-26 | `Do` builds from the default options followed by the call's, so a call's option beats a default option on method, host, path, url and body |
| RequestProperties.MethodDefaultsToGet | request.go:43-45 | an unset method becomes GET and a set one is kept, so the method is never empty |
| RequestProperties.NoAddressFails | request.go:46-48 | options that never set a host or a url make `NewRequest` fail with the missing-url error, whatever the body |
| RequestProperties.UrlTakesPrecedence | request.go:66-69 | a non-empty url from the last `WithURL` is the address, whatever host and path were set; the only possible failure is the invalid-body error |
| RequestProperties.HostPathAddress | request.go:66-69 | without a url, the address is host and path concatenated with no separator added |
| RequestProperties.MethodHostPathBuilds | request.go:29-69 | method, host and path alone always pass the checks, with the address host then path and no body |
| RequestProperties.LastBodyDecidesStream | request.go:50-64 | the last `WithBody` decides: the checks pass exactly when its value is an accepted type, nil gives no body, and a string or byte slice gives its bytes |
| RequestProperties.FormNeedsValues | request.go:149-158 | `WithForm` fails with the invalid-form error exactly when its argument is not `url.Values`; otherwise the body becomes the encoded form |
| RequestProperties.JsonOption | request.go:160-172 | `WithJSON` sets Content-Type to application/json and the body to the encoding; an encoder error is returned unchanged and nothing is written |
| RequestProperties.XmlOption | request.go:174-184 | `WithXML` sets Content-Type to application/xml and the body to the encoding; an encoder error is returned unchanged |
| RequestProperties.LaterHeaderOverridesJson | request.go:124-131 | a `WithHeader` after `WithJSON` that names Content-Type replaces the JSON content type |
| RequestProperties.HeaderOption | request.go:124-131 | `WithHeader` sets each named key to its one value and leaves every other header key alone |
| RequestProperties.QueryOption | request.go:133-140 | `WithQuery` replaces each named key's value list and leaves every other key alone |
| RequestProperties.QueryDoesNotAccumulate | request.go:133-140 | two `WithQuery` options on the same key leave only the second list |
| RequestProperties.DecorateMergesHeadersAndQuery | request.go:81-91 | draft headers overwrite the built request's per key and keep its other keys; an empty draft query leaves the URL alone, any other is appended to the raw query; method, context and body are untouched |
| RequestProperties.FoldErrors | request.go:149-184 | with encoders reporting their own errors, an option fails only with the invalid-form error or an encoder's error |
| RequestProperties.BuildErrorCodes | request.go:29-94 | with such encoders, `NewRequest` fails only with the missing-url, invalid-body, invalid-form or unknown code, never bad-status or encoding-error |
| ClientPipeline.HttpClient.Do | client.go:51 | one exchange with the network per call: the answer is the transport's and the call count grows by one |
| ClientPipeline.RunValidators | client.go:31-35 | the validators run in order and the loop returns exactly `FirstRejection`, the first rejection or none |
| ClientPipeline.Client.constructor | client.go:82-85 | a new client has no transport, no default options and no validators |
| ClientPipeline.Client.Apply | client.go:100-110 | `WithHTTPClient` replaces the transport; `WithDefaultOptions` and `WithRequestValidation` append to their lists |
| ClientPipeline.Client.Do | client.go:21-79 | the response and error are the ones `DoSpec` gives, and the transport is used once if the request reaches it and never otherwise |
| ClientPipeline.NewClient | client.go:81-98 | the options are applied in order to a fresh client, then the default transport is set if none was; the transport is never nil |
| ClientProperties.LastHttpClientWins | client.go:100-102 | with several non-nil `WithHTTPClient` options, the last one decides the transport |
| ClientProperties.DefaultTransportWhenUnset | client.go:93-95 | without `WithHTTPClient`, the options leave the transport nil and `NewClient` sets the default one |
| ClientProperties.RegistrationsAppend | client.go:104-110 | the client's validators and default options are all those registered, earlier options first |
| ClientProperties.FirstRejectionIsFirst | client.go:31-35 | there is a rejection exactly when some validator rejects, and then it is the answer of a rejecting validator with every earlier one accepting |
| ClientProperties.BuildFailureStops | client.go:26-29 | a build failure is returned unchanged, with no response and no validator or transport call |
| ClientProperties.ValidatorRejectionStops | client.go:31-35 | the first rejecting validator's error is returned unchanged, with no response, and the transport is not used |
| ClientProperties.TransportErrorReturned | client.go:51-54 | a transport error is returned unchanged with no response, so `Code` reads a foreign one as CodeUnknown |
| ClientProperties.ResponseClassified | client.go:56-78 | a response that arrives, with no response logger or one whose dump is written, is returned wrapped; the error is nil exactly for 200-299, and otherwise has the bad-status code and carries the status |
| ClientProperties.ResponseDumpFailureStops | client.go:56-66 | when the response logger's dump fails, that error is returned with no response, after the request was sent |
| ClientProperties.NoResponseWithoutTransport | client.go:21-79 | every outcome without a response carries an error, and a `Do` that did not reach the transport returns no response |
| ClientProperties.ClassifyStatus | client.go:72-78 | nil exactly for 200-299; otherwise a statusError with the bad-status code, the status, and the status in decimal inside the message's parentheses |
| ClientProperties.NoContentSucceeds | client.go:74 | 204 is success |
| ClientProperties.NotFoundFails | client.go:74-75 | 404 is a bad-status error carrying 404 |

## Left out

- `response.go` (decoding of response bodies) is not part of this model.
- User-written request and client options (arbitrary closures) are left out. Options are the package's own `With*` constructors, as a closed datatype.
- The network is the deterministic function `exchange` of an `HttpClient`. Timeouts, redirects, retries and concurrency are not modelled.
- `http.NewRequestWithContext` is a parameter. The model does not capture the URL parsing it does or which addresses it refuses. Only its success or error, and the request it returns, are used.
- The JSON and XML encoders and `url.Values.Encode` are parameters. Their output format is not modelled (for example the newline the JSON encoder appends, HTML escaping turned off, or key sorting in `Encode`).
- Header key canonicalisation by `header.Set` is not modelled: keys are stored as given.
- Logging: the request and response dumps are functions that may fail. What they write and the process-wide side effect of `log.SetOutput` are left out. `Do` always overwrites the request logger with the standard logger's writer (client.go:37-39), so the request dump is always attempted and `WithRequestLogger` has no effect on `Do`. The model keeps that order.
- Contexts are opaque values. Cancellation and deadlines are not modelled.
- `Client.Do` does not model Go slice aliasing. At client.go:25 `append` may write into the spare capacity of the default-option slice that other calls share. The model concatenates values.
- Go's nil versus empty slices and maps are not distinguished (client.go:22-24, client.go:87). Both behave the same in the code.
- The `*bytes.Buffer` case of the body switch (request.go:55-56) is unreachable, because a buffer is an `io.Reader`. Both cases give the same stream.
- `http.NewRequestWithContext` sees only the body's bytes, not its Go type. For a string, a `[]byte` or a `*bytes.Buffer` Go knows the content length; any other `io.Reader` has an unknown length and is sent chunked. In the model, `Reader(s)` and `Text(s)` reach the constructor identically, so content length and transfer encoding are not modelled.
- Validators are pure functions of the request. In Go each validator gets the shared `*http.Request` pointer (client.go:32) and may modify it, and the modified request is what the transport sends (client.go:51). Validators that modify the request are not modelled: the transport receives exactly the request the validators saw.
- The `err != nil` branch at client.go:72-73 is unreachable, because the transport's error was returned at client.go:52-54. The model has no such branch.
- The HTTP status a `statusError` carries is an unbounded integer; the code keeps its 32-bit `int32` range. The JSON field tags of `statusError` are not modelled.
