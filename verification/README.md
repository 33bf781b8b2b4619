# weboffice gateway: dispatch and translation core

A model of the HTTP gateway that sits between the WebOffice document editor
and a storage backend. Each route's handler closure:

- derives the caller's execution context from the request headers;
- reads its path, query, form or JSON inputs;
- calls one method of an embedder-supplied provider.

The response wrapper then turns the outcome into a JSON envelope
`{code, message, data}` with an HTTP status. Provider failures are
classified through a table of nine enumerated errors, each a shared
singleton with a wire code, a status and a message.

Modules, one per concern of the Go package:

- `Strconv`: the parts of `strconv` and `fmt` the handlers use. These are
  base-10 `ParseInt`/`Atoi`, `ParseBool`, `%d`, and the wrapping
  `int32(...)` conversion. `ParseInt` scans digits from the left and stops
  with a range error as soon as the digits so far exceed 2^64 - 1, so an
  overflowing prefix wins over a later syntax error.
- `Errors`: the error table, `NewError`, `NewCustomError`, `WithMessage`,
  `Error()`, and the `errors.As` lookup over a wrap chain. The nine
  singletons' current messages are explicit state (`Registry`), because
  `WithMessage` overwrites them.
- `Structs`: the reply envelope and the JSON fields it encodes to, the
  `Empty` marker, and the upload, rename and notify argument records.
- `Context`: `ParseContext` and Go's header-name canonicalization.
- `Providers`: the six capability contracts as records of functions, and
  `Config` with its nil-able provider slots. Each provider call receives the
  singletons' current messages and returns them as it leaves them, since a
  provider may itself call the exported `WithMessage`.
- `Routes`: `registerRoutes` and `NewServer`, which decide which routes
  exist.
- `Requests`: the request as the router presents it to a closure.
- `Upload`: the upload closure and the life of its file stream.
- `Gateway`: the other closures, `wrapHandlerFunc`, and one request served
  end to end.

Two defects of the Go code are modelled as written and corrected (see
"## Findings"). `Errors.Policy` selects which definition a run uses:
`AsWritten` or `Corrected`.

Four behaviours of the Go code are easy to misread; the model follows the
code:

- An error built by `NewError` or `NewCustomError` has HTTP status 0. The
  router's writer ignores a status that is not positive, so such a reply
  goes out with 200, not 403 (`Gateway.CustomFailureReply`).
- An error reply always carries `"data": null`, because `Reply.Data` has no
  `omitempty`.
- A failure that is not an `*Error` is not turned into an internal error:
  the wrapper dereferences a nil pointer (Findings, row 2).
- `WithMessage` does not leave the singleton alone (Findings, row 1).

## Model

| member | source | states |
|---|---|---|
| `Errors.KindOfCode` | errors.go:17-25 | a wire code is read as kind `k` only if `k` owns that code; `None` means no kind owns it |
| `Errors.WireCodesDistinct` | errors.go:17-25 | two kinds have the same wire code exactly when they are the same kind |
| `Errors.WireCodesReserved` | errors.go:11-25 | no enumerated code is `OK` (0) or the custom code 40007; all lie in 40002..50001 |
| `Errors.StatusClasses` | errors.go:17-25 | 401 is Unauthorized's alone, 500 InternalError's alone, and every other kind is 403 |
| `Errors.KindOfCodeRoundTrip` | errors.go:17-25 | a client recovers the enumerated kind from the wire code |
| `Errors.InitialSingletons` | errors.go:17-25 | before any `WithMessage`, each singleton holds its declared code, status and message |
| `Errors.Singleton` | errors.go:17-25 | the value `ErrXxx` points at has `k`'s code and status and the message the singleton currently holds |
| `Errors.NewError` | errors.go:63-65 | the given code, status 0 and an empty message; never equal to a singleton's value |
| `Errors.NewCustomError` | errors.go:68-70 | code 40007, which is neither `OK` nor any enumerated code, status 0, and the given message |
| `Errors.WithMessage` | errors.go:51-55 | code and status kept on both values; the returned clone has the OLD message, the receiver the new one |
| `Errors.WithMessageOn` | errors.go:51-55 | on a singleton: the returned error carries the singleton's previous message; afterwards the singleton holds `msg` and no other singleton changed |
| `Errors.WithMessageLagsOneCall` | errors.go:52-54 | two calls on one singleton: the first returns the previous message, the second returns the first call's text |
| `Errors.WithMessageFirstCallExample` | errors.go:52-54 | the first `ErrInvalidArguments.WithMessage("unexpected EOF")` returns "invalid arguments" and leaves the singleton saying "unexpected EOF" |
| `Errors.Derive` | errors.go:50-55 | corrected derivation: `k`'s code and status with the new message; no singleton changes |
| `Errors.DeriveBy` | errors.go:51-55 | under either definition the error has `k`'s code and status; corrected, it carries the new message and no singleton changes; as written, it carries the previous message and only `k`'s singleton now holds the new one |
| `Errors.DeriveIsStateless` | errors.go:50-55 | two corrected derivations each return their own message and leave the singletons unchanged |
| `Errors.Render` | errors.go:58-60 | the code and the message are read back exactly from the `Error()` text, whatever the message contains |
| `Errors.As` | server.go:72-76 | nothing is found exactly when the bottom of the wrap chain is not an `*Error`; a singleton resolves to its current value; any other `*Error` resolves to itself |
| `Strconv.FormatInt` | errors.go:59 | `%d` text is non-empty, starts with '-' exactly for negatives, is digits after that, and has no space |
| `Strconv.DigitsRoundTrip` | errors.go:59 | the decimal digits of `n` read back as `n` |
| `Strconv.FormatParseRoundTrip` | errors.go:59 | every integer's `%d` text parses back to that integer |
| `Strconv.ParseUint64` | server.go:148 | a range error exactly when the leading run of digits is worth more than 2^64 - 1, even if text follows it; a number exactly for non-empty all-digit text that fits, and then its value |
| `Strconv.ScanMatchesDigitRun` | server.go:148 | the left-to-right scan agrees with reading the longest digit prefix: it is a range error exactly when that prefix's value exceeds 2^64 - 1, otherwise a syntax error when a non-digit follows, and otherwise that value |
| `Strconv.HornerIsDigitsValue` | server.go:148 | folding digits from the left, `acc * 10 + d`, gives their positional value |
| `Strconv.ParseInt64` | server.go:148 | a well-formed number gives its value clamped to 64 bits; digits that overflow give the bound for the sign even when other text follows; every other malformed text gives 0 |
| `Strconv.OverflowIgnoresTrailingText` | server.go:148 | an overflowing digit run followed by a non-digit is still a range error, read as MaxInt64, or MinInt64 after a '-' |
| `Strconv.OverflowExample` | server.go:176-177 | "18446744073709551616x" is read as MaxInt64, not 0 |
| `Strconv.ParseInt64RoundTrip` | server.go:148 | every 64-bit value the client formats reaches the provider unchanged |
| `Strconv.NarrowInt32` | server.go:186 | the result agrees with the input modulo 2^32, and equals it when it fits in 32 bits |
| `Strconv.VersionParamRoundTrip` | server.go:184-186 | a 32-bit version number survives `Atoi` and `int32(...)` |
| `Strconv.VersionParamWraps` | server.go:184-186 | "2147483648" reaches the provider as -2147483648 rather than being rejected |
| `Strconv.ParseBool` | server.go:149 | exactly the six spellings of true and the six spellings of false are accepted |
| `Strconv.ParseBoolOrFalse` | server.go:149 | true exactly when `ParseBool` accepts the text as true; every rejected text gives false |
| `Strconv.ParseBoolRoundTrip` | server.go:149 | both `FormatBool` spellings are read back as the same value |
| `Structs.PayloadJson` | structs.go:13-18 | data encodes as `null` exactly when it is nil; `&Empty{}` never does |
| `Structs.EncodeReply` | structs.go:10-14 | `code` comes first, `message` appears only when non-empty, and `data` is always last |
| `Structs.ReplyRoundTrip` | structs.go:10-14 | a client decodes every envelope back to the same reply; leaving out an empty message loses nothing |
| `Structs.ReplyAlwaysCarriesData` | structs.go:13 | the `data` key is in every reply, and is null exactly when the data is nil |
| `Context.HeaderGet` | server.go:49-51 | `Get` returns something non-empty only when the canonical key is present, and then its first value |
| `Context.HeaderKeysCanonical` | server.go:49-56 | the four header names are stored as "X-App-Id", "X-Weboffice-Token", "X-Request-Id" and "X-User-Query" |
| `Context.HeaderGetIgnoresCase` | server.go:49-51 | a well-formed header name finds the same value however its letters are cased |
| `Context.CanonicalKey` | server.go:49-51 | canonicalization only changes the case of letters, and leaves a name with a non-token character unchanged |
| `Context.CanonicalKeyIdempotent` | server.go:49-51 | canonicalizing a canonical name changes nothing |
| `Context.ParseContext` | server.go:46-62 | panics exactly when the token header is empty; otherwise each field is its header's first value, and the query is the parsed header or the empty mapping |
| `Context.ParseContextUsesHeaderGet` | server.go:49-60 | the same facts, the empty mapping for an unparsable query included, stated over `h.Get` of the header names as the code spells them |
| `Context.ContextRoundTrip` | server.go:46-62 | any context with a non-empty token is recovered from the headers a client sends for it |
| `Context.MalformedQueryIsEmpty` | server.go:56-60 | a query header that does not parse does not fail the request; it yields the empty mapping |
| `Providers.PresenceOf` | structs.go:106-130 | each presence flag is set exactly when its provider slot is non-nil |
| `Routes.GroupOf` | server.go:88-211 | a capability's group holds exactly the endpoints that call that capability, each once |
| `Routes.Registered` | server.go:88-211 | a group is registered in full when its provider is present, and preview always; otherwise nothing is |
| `Routes.RegisterRoutes` | server.go:88-211 | registered endpoints are exactly those whose group is registered, with no repeats; the count is 3 plus 1, 1, 2, 3 and 1 for the user, watermark, edit, version and notify providers |
| `Routes.RouteOfInjective` | server.go:89-199 | no two endpoints share a (method, path) pair |
| `Routes.RouteSetSize` | server.go:88-211 | distinct endpoints occupy as many (method, path) pairs as there are endpoints |
| `Routes.RouteCount` | server.go:88-211 | the number of distinct routes is 3 plus one per user, watermark and notify provider, two for edit, and three for version |
| `Routes.NewServer` | server.go:215-234 | panics exactly without a preview provider; otherwise keeps the configuration, providers and prefix included, except that a missing logger becomes the no-op one, registers on the engine exactly for an empty prefix, and registers `registerRoutes`' endpoints |
| `Routes.RouteExistsIffProviderPresent` | server.go:107-211 | once started, an endpoint's route exists exactly when its provider is non-nil |
| `Routes.RoutesDependOnPresenceOnly` | server.go:215-233 | two configurations with the same non-nil providers get the same routes |
| `Requests.FormFile` | server.go:130-133 | a part is returned exactly when the body parses as multipart, has a part of that name, and `FormFile`'s own opening of the part succeeds; otherwise the parse error, a missing-file error, or the open error |
| `Upload.Next` | server.go:134-143 | the provider reads the stream only while it is open, and a stream is opened only from nothing and closed only after it was opened |
| `Upload.AssembleArgs` | server.go:145-150 | name and sha1 are the form values; a well-formed size arrives clamped to 64 bits, an overflowing one as the bound for its sign, and other malformed text as 0; the manual flag is `ParseBool`'s value when it accepts the text and false otherwise; the content is the part's bytes |
| `Upload.UploadFieldsRoundTrip` | server.go:145-150 | whatever arguments a client sends in the form reach the provider exactly |
| `Upload.HandleUpload` | server.go:126-153 | panics exactly without a token, and then touches neither stream nor singletons; under the corrected policy a request that never reaches the provider changes no singleton |
| `Upload.StreamClosedExactlyOnce` | server.go:134-152 | every run is a legal stream life: either no stream, or opened, read by the provider, then closed once |
| `Upload.UploadTraceIsLegal` | server.go:134-152 | open, provider call, close is a legal sequence that ends with the stream closed once |
| `Upload.MissingFileIsInvalidArguments` | server.go:130-133 | a missing file part, or one `FormFile` cannot open, fails with code 40005 and status 403 and opens nothing |
| `Upload.OpenFailureIsInternalError` | server.go:134-137 | a part that `FormFile` opened but the handler's own `Open` cannot fails with code 50001 and status 500 and opens nothing |
| `Upload.ProviderAnswerPassesThrough` | server.go:145-152 | once the stream is open, the outcome is the provider's answer for the assembled arguments, and the singletons are as the provider left them |
| `Upload.CloseErrorIgnored` | server.go:138-143 | a failing close changes neither the outcome nor the singletons |
| `Gateway.WireStatus` | server.go:78 | a positive status goes out as given; zero or a negative status goes out as 200 |
| `Gateway.Acknowledge` | server.go:163-167 | a provider call without a result answers `{}` on success and its error with null data otherwise |
| `Gateway.Wrap` | server.go:65-85 | panics propagate; success is 200 with code `OK` and the data; an `*Error` failure is sent with its status, code and message and null data; a foreign failure crashes as written and is a 500 internal error when corrected |
| `Gateway.HandleRename` | server.go:155-168 | panics exactly without a token, and then changes no singleton; a body that does not bind fails with InvalidArguments derived from the decoder's error |
| `Gateway.HandleNotify` | server.go:198-211 | a body that does not bind fails with InvalidArguments even without a token; it panics only when the body binds and the token is empty, and then changes no singleton |
| `Gateway.PlainClosure` | server.go:89-123 | a route with no body panics exactly without a token, changing nothing; otherwise its outcome and the singletons are exactly what its provider call answered |
| `Gateway.Handle` | server.go:88-211 | a panic happens only before any provider call and changes no singleton; a request that never reaches its provider leaves the singletons unchanged for routes without a body, and for every route under the corrected policy |
| `Gateway.Serve` | server.go:88-211 | the router answers 404 exactly when the endpoint's provider is nil, and then nothing changes |
| `Gateway.StartedServerWellFormed` | server.go:215-234 | every server `NewServer` returns has a preview provider and exactly `registerRoutes`' endpoints |
| `Gateway.ClassifiedFailureReply` | server.go:71-78 | a failure rooted in `ErrXxx` reaches the client with that kind's status and code, the singleton's current message, and null data |
| `Gateway.CustomFailureReply` | server.go:78 | a `NewCustomError(m)` failure carries code 40007 and `m`, but goes out with status 200 |
| `Gateway.ForeignFailureCrashes` | server.go:72-78 | as written, a failure with no `*Error` in its chain produces no reply at all |
| `Gateway.CorrectedWrapAlwaysReplies` | server.go:72-78 | corrected, the wrapper crashes only when the closure panicked; a foreign failure is a 500 internal error |
| `Gateway.TokenRequired` | server.go:53-55 | without a token every route panics before any provider call and changes no singleton; notify does so only once its body binds |
| `Gateway.NotifyBodyBeforeToken` | server.go:199-204 | notify with a malformed body and no token fails with InvalidArguments |
| `Gateway.BindOrderDiffers` | server.go:155-204 | with no token and a malformed body, rename crashes while notify passes status 403 and code 40005 to `c.JSON` |
| `Gateway.SuccessReply` | server.go:81 | success is 200, code `OK`, no message and the data; rename and notify succeed with `{}` as the data, never null |
| `Gateway.PlainRouteAnswers` | server.go:89-123 | with a token, every route without a body returns exactly its provider call's answer, and the singletons are as the provider left them |
| `Gateway.AcknowledgedRoutesAnswer` | server.go:155-211 | with a token and a body that binds, rename (given an edit provider) and notify (given a notify provider) each reply `{}` or the provider's error, with the singletons as the provider left them; neither needs the other's provider |
| `Gateway.PlainAnswerReadsPathAndQuery` | server.go:89-123 | the provider call of a route without a body depends only on the path parameters and the query string |
| `Gateway.AtoiReadsValue` | server.go:176-191 | `Atoi` reads the text of `n` as `n`, any other well-formed number such as "+5" or "007" as its value clamped to 64 bits, overflowing digits as the bound for the sign, and other malformed text as 0 |
| `Gateway.AtoiReadsTotal` | server.go:176-191 | every text falls under one of those cases, so the lemmas stated over them exclude no request |
| `Gateway.VersionListCall` | server.go:173-180 | for every request, the version list call receives `Atoi` of the offset and limit query values |
| `Gateway.VersionCall` | server.go:181-194 | for every request, both version calls receive `int32` of `Atoi` of the version path parameter |
| `Gateway.VersionListParameters` | server.go:173-180 | a well-formed offset or limit arrives as its value clamped to 64 bits (unchanged when it fits), an overflowing one as the bound for its sign, and other malformed text as 0 |
| `Gateway.VersionParameter` | server.go:181-194 | both version calls receive `int32` of what `Atoi` read, in every case `AtoiReads` names: a 32-bit version unchanged, a malformed one as 0, and overflowing digits without a sign as -1 |
| `Gateway.MessageLeaksAcrossRequests` | server.go:130-133 | as written, an upload whose file part `c.FormFile` cannot deliver (no multipart body, no part, or a part it cannot open) is answered with the singleton's previous message, and a later unrelated request is answered with the upload's error text |
| `Gateway.ProviderWithMessageLeaks` | errors.go:51-55 | as written, a provider failing with `ErrFileNotExists.WithMessage(m)` is answered with the previous message and leaves `m` in the singleton |
| `Gateway.CorrectedServeIsStateless` | server.go:130-133 | corrected, a request that never reaches its provider changes no singleton, and the upload's reply carries its own error text |
| `Gateway.FileNotExistsExample` | server.go:89-94 | GetFile failing with `ErrFileNotExists`, in a fresh process whose provider changed no singleton, answers 403 and `{"code":40004,"message":"file not exists","data":null}` |

## Left out

- Route matching, path joining under the prefix, and `Run`/`Router`/`Handler` (server.go:237-249) belong to the router. A route is named by its endpoint, and the root router is only `Engine` or `Group(prefix)`.
- `c.Param`, `c.Query`, `c.QueryArray`, `c.PostForm` and `c.FormFile` are modelled by their results on an already-parsed request (`Requests`). Multipart parsing itself is not modelled, and `FormFile`'s own open and close of the part are an outcome of the part, not steps in the stream trace.
- `BindJSON` and `url.ParseQuery` are function parameters (`Codecs`). JSON decoding and encoding of provider payloads are opaque.
- `BindJSON` also writes status 400 itself before the wrapper replies. The model reports the status the wrapper passes to `c.JSON`.
- A crashed handler is recovered by the router's middleware, if the embedder installed one. The model stops at `Crashed`.
- Provider behaviour is whatever the embedder supplies, modelled as function fields. The provider implementations and interface.go's method sets are not modelled beyond their signatures, and neither is a provider that panics.
- logger.go and every log line are not modelled. This includes the format string at server.go:79, which has five verbs and four arguments, and the `log.Println` of a close error (server.go:141).
- The `time.Now`/`time.Since` measurement in the wrapper is not modelled; it only feeds the log lines.
- The embedded `context.Context` of `UserContext` is not modelled, and neither are its accessors (server.go:32-43), which are the datatype's field selectors.
- The accessors `Code`, `StatusCode` and `Message` (errors.go:36-48) are the `Error` datatype's field selectors.
- Data races on the shared singletons between concurrent requests are not modelled. Requests are served one after another, and the registry is threaded through them.
- `Referer` (structs.go:7), the provider payload records and `Rotate`'s floating-point type (structs.go:65) are not modelled: the gateway passes payloads through untouched.
- `NotifyArgs` is an opaque document, and `UpdateFilePhaseArgs.Content` is the part's bytes rather than a reader.
- A typed nil `*Error` returned as a non-nil `error` is not modelled.
- Errors.As: only a single wrap chain (`Unwrap() error`) is walked. Trees from `errors.Join` or several `%w` verbs (`Unwrap() []error`) and errors with their own `As(any) bool` method are not modelled.
- `Atoi` is modelled for a 64-bit platform, where `int` is 64 bits.
- Header canonicalization follows the current Go rule: a name with a character that is not a token character is left unchanged. Header maps are assumed to hold canonical keys, as the server's request parser produces.

## Findings

| source | as written | input that shows it | evidently intended | confidence | as-written member | corrected member |
|---|---|---|---|---|---|---|
| errors.go:51-55 | `WithMessage` copies the receiver, then overwrites the SHARED singleton's message and returns the copy, which still carries the old message | an upload without a "file" part (or with a body that is no multipart form) in a fresh process: the reply says "invalid arguments" instead of `FormFile`'s error text ("http: no such file" or the parse error), and every later `ErrInvalidArguments` reply from any provider says that text | return a new error with the singleton's code and status and the given message, leaving the singleton unchanged | not executed | `Errors.WithMessageOn`, `Errors.WithMessageFirstCallExample`, `Gateway.MessageLeaksAcrossRequests`, `Gateway.ProviderWithMessageLeaks` | `Errors.Derive`, `Errors.DeriveIsStateless`, `Gateway.CorrectedServeIsStateless` |
| server.go:72-78 | when `errors.As` finds no `*Error`, `respErr` stays nil and `respErr.StatusCode()` dereferences it | a provider returning `errors.New("disk full")` from `GetFile` | answer the failure as `ErrInternalError` (status 500, code 50001) | not executed | `Gateway.ForeignFailureCrashes` | `Gateway.CorrectedWrapAlwaysReplies` |
