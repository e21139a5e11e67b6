# apiweaver core, modelled in Dafny

apiweaver is a Go toolkit for HTTP services. Its core has four pieces of
decision logic:

- **router**: the router's option record and how its middleware chain is
  resolved (an override list, or `prepend ++ defaults ++ append`, where the
  defaults are OpenAPI validation, CORS, timeout and logging, each under its
  own guard). It also covers how a chain is wrapped around the application
  handler, the CORS decision per request, and the quiet-route and
  header-redaction steps of the logging middleware.
- **info**: the InfoHandler record and its option setters. It also covers
  the fail-fast probe runner with its timeout, cancellation and failure
  classification, and the status routes and documentation routes built on
  them.
- **responder**: the status metadata table and its normalisation, RFC 9457
  problem documents, the newline rule for JSON payloads, and error dispatch
  through an optional classifier.
- **probe**: the ping, database, MongoDB and HTTP probe constructors with
  their guards, and the option layer of the HTTP probe: defaults, refilling
  nil fields afterwards, fail-fast mutators and validators, and the allowed
  statuses.

The model keeps the source's structure, one module per Go file:

| file | module |
|---|---|
| `router_options.dfy` | `RouterOptions` |
| `router_std.dfy` | `RouterStd` |
| `info_probes.dfy` | `InfoProbes` |
| `info_handler.dfy` | `InfoSetup` |
| `info_routes.dfy` | `InfoRoutes` |
| `responder_problem.dfy` | `ResponderProblem` |
| `responder_setup.dfy` | `ResponderSetup` |
| `responder_response.dfy` | `ResponderResponse` |
| `probe_http_options.dfy` | `ProbeHTTPOptions` |
| `probe_helpers.dfy` | `ProbeHelpers` |
| `probe_funcs.dfy` | `Probe` |

Four foundation modules give the Go library behaviour the core relies on:

- `Wrappers`: Option and Result.
- `GoStd`: decimal formatting, UTF-8 length, `strings.TrimSpace`/`Join`, `strings.ToUpper` on ASCII letters, `time.Duration.String`, `fmt.Errorf("%w")` wrapping with `errors.Is`/`Unwrap`, contexts and slog levels.
- `GoHttp`: the status-text table, `CanonicalHeaderKey`, `http.Header`, and an `http.ResponseWriter` class. In the writer, the first `WriteHeader` wins, `Write` implies 200, and a broken connection drops the data.
- `Json`: JSON payload values, with the encoder as a parameter.

Each option record is a Dafny class with the record's fields. These are the
router's `options`, `InfoHandler`, `Responder` and `httpProbeConfig`.
Around each class:

- `Value()` is a snapshot of the record.
- `Applied(s, opt)` says what one option closure does to a snapshot.
- `ApplyAll` is the constructor's loop, with nil options skipped.
- The class's `Apply` method and its constructor are proved against these, and the lemmas about the options are stated on `ApplyAll`.

Route handlers and responder methods change a `ResponseWriter`. Each is
proved to leave the writer in a state given by a specification function of
the old state. Lemmas say what status, headers and body that state has.

## Model

| member | source | states |
|---|---|---|
| RouterOptions.Options.constructor | router/options.go:30-41 | defaults: 30s timeout, default logger, no swagger, all four stage flags on, empty prepend/append/override lists |
| RouterOptions.Options.Apply | router/options.go:80-159 | running one option closure changes the record exactly as `Applied` says |
| RouterOptions.ApplyAllSnoc | router/std.go:22-27 | options apply in order; a nil option changes nothing |
| RouterOptions.Options.MiddlewareChain | router/options.go:43-55 | a non-empty override list is returned verbatim; otherwise the chain is prepend, then at most four default stages, then append |
| RouterOptions.ChainResolution | router/options.go:43-55 | the resolved chain is the override when it is non-empty; otherwise it starts with prepend, ends with append and has at most four stages between them |
| RouterOptions.Options.DefaultMiddlewares | router/options.go:57-77 | the method yields the default stages of the current record, at most four |
| RouterOptions.StageFor | router/options.go:60-74 | stage k (0 OpenAPI, 1 CORS, 2 timeout, 3 logging) is built iff its guard holds: flag and swagger, flag and origins, flag and positive timeout, flag and logger |
| RouterOptions.DefaultStagesCharacterised | router/options.go:57-77 | the default stages come strictly in the order OpenAPI, CORS, timeout, logging, at most four; each is the stage its guard builds, and a stage is present iff its guard holds |
| RouterOptions.FourStages | router/options.go:57-77 | concatenating four optional stages of ranks 0..3 gives a strictly rank-ordered list holding exactly the present ones |
| RouterOptions.StageAtIndex | router/options.go:57-77 | every position of the default list holds the stage of its own rank |
| RouterOptions.StagePresentAt | router/options.go:57-77 | every present stage sits in the default list at its computed position |
| RouterOptions.StageIndexMonotone | router/options.go:57-77 | the positions of present stages increase with their rank |
| RouterOptions.StageForIs | router/options.go:57-77 | the k-th slot of the four stage slots is the stage built for rank k |
| RouterOptions.PrependAccumulates | router/options.go:111-115 | the prepend list is the old one followed by every WithMiddlewares argument, in call order |
| RouterOptions.AppendAccumulates | router/options.go:118-122 | the append list is the old one followed by every WithTrailingMiddlewares argument, in call order |
| RouterOptions.LastMiddlewareChainWins | router/options.go:125-131 | the override list is the argument of the last WithMiddlewareChain, or the original when there is none |
| RouterOptions.WithoutClearsOnlyItsFlag | router/options.go:133-159 | a Without* option clears its own flag; the other flags and every other field are unchanged |
| RouterOptions.FlagAfterOptions | router/options.go:133-159 | after a sequence of options, a stage flag is on iff it was on before and no option in the sequence disables it |
| RouterOptions.FlagAfterOne | router/options.go:133-159 | after one option, possibly nil, a flag is on iff it was on and the option does not disable it |
| RouterOptions.ZeroTimeoutDropsTimeoutStage | router/options.go:68-70 | after WithConfig with a non-positive timeout, the defaults contain no timeout stage |
| RouterStd.New | router/std.go:17-33 | a nil handler is the panic "router: handler cannot be nil"; otherwise the result is the handler wrapped in the chain resolved from the defaults and the non-nil options in order |
| RouterStd.ApplyMiddlewares | router/std.go:35-49 | the reverse loop builds the same handler as right-to-left composition of the list |
| RouterStd.NonNil | router/std.go:42-44 | the kept middlewares are all non-nil members of the list |
| RouterStd.ComposeSkipsNil | router/std.go:40-46 | nil middlewares do not affect the composed handler |
| RouterStd.OnionOrder | router/std.go:40-46 | serving through m1..mn traces m1-pre … mn-pre, the handler, mn-post … m1-post |
| RouterStd.HandlerServedOnce | router/std.go:36-38 | an empty chain returns the handler itself, and any chain serves the handler exactly once |
| RouterStd.AllowedOrigin | router/std.go:148-156 | true iff some allowed entry is `*` or equals the origin exactly |
| RouterStd.ShouldQuietRoute | router/std.go:158-166 | true iff the path equals some quiet route exactly |
| RouterStd.CorsPassThrough | router/std.go:110-119 | with no configured origins or no Origin header, next is called and no header or status is written |
| RouterStd.CorsWithOrigin | router/std.go:121-136 | an allowed origin gets Allow-Origin and Vary: Origin, and a disallowed one gets neither header at all; a non-OPTIONS request gets no other header; OPTIONS, even from a disallowed origin, gets the joined Allow-Methods/Allow-Headers, Allow-Credentials iff enabled, and status 200 without calling next; other verbs call next with no status |
| RouterStd.ServeCors | router/std.go:114-137 | the handler sets on the writer exactly the headers and status `CorsDecision` chose and reports whether next runs |
| RouterStd.ReflectOrigin | router/std.go:122-123 | the writer gains Allow-Origin and Vary, in that order |
| RouterStd.AllowPreflight | router/std.go:127-131 | the writer gains Allow-Methods and Allow-Headers, then Allow-Credentials only when enabled, in that order |
| RouterStd.SetAllOne | router/std.go:122 | setting a one-header list is one Header().Set |
| RouterStd.SetAllTwo | router/std.go:122-123 | setting a two-header list is two Header().Set calls in order |
| RouterStd.SetAllAppend | router/std.go:122-131 | setting a + b is setting a, then b |
| RouterStd.CloneHeaders | router/std.go:168-177 | the copy is a new header object with the same keys and value lists, so changing it leaves the source alone |
| RouterStd.RedactHeaders | router/std.go:179-194 | the loop leaves the header map equal to the redaction of every hide name in order |
| RouterStd.RedactKeepsUnlisted | router/std.go:179-194 | redaction adds no key and leaves keys not listed (after canonicalisation) unchanged |
| RouterStd.RedactHidesListed | router/std.go:181-192 | a listed key that is present ends as a single "[REDACTED - N bytes]" placeholder |
| RouterStd.RedactCountsOriginalBytes | router/std.go:187-192 | with one hide name per key, N is the summed byte length of the key's original values |
| RouterStd.RedactAfter | router/std.go:180-193 | hide names that canonicalise elsewhere do not touch an already redacted key |
| RouterStd.RedactTwiceCountsPlaceholder | router/std.go:180-193 | two hide names with the same canonical key redact the placeholder again, so N counts the first placeholder's bytes |
| RouterStd.LogRequest | router/std.go:81-95 | a quiet route logs nothing; other requests log path, method, the redacted copy of the headers and the content length when positive |
| InfoProbes.EffectiveTimeout | info/probes.go:28-31 | the timeout used is positive: the configured one when positive, otherwise 2s |
| InfoProbes.ClassifyKinds | info/probes.go:41-48 | a deadline error reads "probe N timed out after T"; otherwise a cancellation reads "probe N was cancelled"; otherwise "probe N failed: …" wraps and unwraps to the cause |
| InfoProbes.ClassifyNamesTheProbe | info/probes.go:41-48 | distinct probe numbers give distinct errors |
| InfoProbes.FirstFailing | info/probes.go:36-50 | a found index holds a non-nil check that fails |
| InfoProbes.FirstFailingCharacterised | info/probes.go:36-50 | no index is found iff every non-nil check passes; a found index is the first failing non-nil check |
| InfoProbes.NonNilBelow | info/probes.go:36-39 | the invoked indices are all below the bound and name non-nil checks |
| InfoProbes.NonNilBelowExactlyOnce | info/probes.go:36-39 | the invoked indices increase strictly and include every non-nil check below the bound |
| InfoProbes.FailingProbe | info/probes.go:24-50 | an empty list never fails; a failing index names a non-nil check |
| InfoProbes.ChecksOutcome | info/probes.go:23-53 | `runChecks` returns nil iff no probe fails |
| InfoProbes.RunChecks | info/probes.go:23-53 | the loop returns the classified error of the first failing probe, numbered from 1 in the original list, or nil; it invokes exactly the specified checks |
| InfoProbes.RunChecksOutcome | info/probes.go:33-50 | every probe sees the timeout context; no failure iff every non-nil check passes; on failure the checks before it passed and exactly the non-nil checks up to the failing one ran, in order |
| InfoProbes.AllPassInvokeEachOnce | info/probes.go:36-52 | when all checks pass, each non-nil check is invoked exactly once, in list order, and no nil entry is |
| InfoProbes.NonNil | info/probes.go:55-72 | the filtered list has only non-nil checks and is no longer than the input |
| InfoProbes.NonNilIsTheSubsequence | info/probes.go:55-72 | the filter keeps exactly the non-nil checks in their original order, and is empty iff every entry is nil |
| InfoProbes.NonNilPrefixMatchesBelow | info/probes.go:55-72 | on every prefix, the filtered list is the checks at the non-nil indices |
| InfoProbes.NonNilBelowEmpty | info/probes.go:55-72 | there are no non-nil indices below n iff every check below n is nil |
| InfoProbes.FilterProbes | info/probes.go:55-72 | the loop yields the order-preserving filter of the non-nil checks |
| InfoProbes.ProbeJsonMembers | info/probes.go:15-21 | the payload names the state, and it has "details" iff details are given, equal to them in order |
| InfoProbes.RespondProbe | info/probes.go:15-21 | the writer ends as a JSON response of the probe payload with the given status |
| InfoSetup.TemplateFor | info/handler.go:164-180 | scalar, swaggerui and redoc select their templates; every other value selects Stoplight |
| InfoSetup.DefaultTemplateData | info/handler.go:182-186 | the default data is exactly {"BaseURL": baseURL} |
| InfoSetup.InfoHandler.constructor | info/handler.go:56-76 | the defaults around a fresh default responder, then the non-nil options in order |
| InfoSetup.InfoHandler.Apply | info/handler.go:80-180 | running one option closure changes the record exactly as `Applied` says |
| InfoSetup.ApplyAllSnoc | info/handler.go:70-74 | options apply in order; a nil option changes nothing |
| InfoSetup.NilArgumentsIgnored | info/handler.go:80-135 | the responder, info, swagger, template and data-provider options leave the record unchanged when given nil |
| InfoSetup.ProbeTimeoutOption | info/handler.go:137-144 | WithProbeTimeout changes the timeout iff it is positive, and nothing else |
| InfoSetup.CheckOptionsReplace | info/handler.go:146-160 | the check options replace their own list with the filtered argument, whatever it held, and leave the other list alone |
| InfoSetup.UITypeOption | info/handler.go:164-180 | WithUIType stores the value and selects its template; an unknown value selects Stoplight |
| InfoSetup.BaseURLOption | info/handler.go:90-94 | WithBaseURL always sets the base URL, the empty one included |
| InfoSetup.OptionsKeepConfigured | info/handler.go:80-160 | no option removes the template or the data provider, or makes the timeout non-positive |
| InfoSetup.OptionsKeepChecksNonNil | info/handler.go:146-160 | no option puts a nil probe into a check list |
| InfoSetup.NewInfoHandlerConfigured | info/handler.go:56-76 | a built handler always has a template, a data provider and a positive timeout |
| InfoRoutes.GetStatus | info/routes.go:9-11 | the writer ends as a 200 "HEALTHY" probe response |
| InfoRoutes.GetHealthz | info/routes.go:14-20 | the writer ends as a 503 problem when the liveness checks fail, otherwise as a 200 "ok" probe response |
| InfoRoutes.GetReadyz | info/routes.go:23-29 | the writer ends as a 503 problem when the readiness checks fail, otherwise as a 200 "ready" probe response |
| InfoRoutes.GetVersion | info/routes.go:32-38 | the writer ends as a 200 JSON response of the version payload |
| InfoRoutes.VersionPayload | info/routes.go:33-36 | a nil provider result becomes the empty object; otherwise it is the provider's value |
| InfoRoutes.GetOpenAPIJSON | info/routes.go:41-54 | the writer ends in the state of: Content-Type set first, then a 500 problem on a provider error, otherwise the document written |
| InfoRoutes.TemplateData | info/routes.go:66-72 | the provider's data when it is set and returns some value, otherwise the default data |
| InfoRoutes.GetOpenAPIHTML | info/routes.go:57-78 | the writer ends in the state of: text/html first, a 500 problem when no template is set or rendering fails, otherwise the page written |
| InfoRoutes.ProbeRouteOutcome | info/routes.go:14-20 | on a fresh writer: 503 with a problem content type when the checks fail, otherwise 200 with JSON and the probe payload as body |
| InfoRoutes.HealthzOutcome | info/routes.go:14-20 | the status is 503 iff some non-nil check fails under the timeout context |
| InfoRoutes.StatusOutcome | info/routes.go:9-11 | GetStatus answers 200 with status "HEALTHY" and no details |
| InfoRoutes.VersionOutcome | info/routes.go:32-38 | GetVersion answers 200 with the marshalled version payload |
| InfoRoutes.OpenAPIJSONOutcome | info/routes.go:41-54 | with a document: 200, application/json, body exactly the document; with a provider error: a 500 problem response |
| InfoRoutes.OpenAPIJSONWriteFailure | info/routes.go:50-53 | a failed write of the document keeps the implicit 200 and leaves no body, because the problem response cannot change a sent status |
| InfoRoutes.BodyUnchangedOnBrokenConnection | info/routes.go:50-53 | nothing reaches the body over a broken connection |
| InfoRoutes.OpenAPIHTMLWithoutTemplate | info/routes.go:60-64 | a nil template gives a 500 problem for "openapi template not configured" after text/html was set |
| InfoRoutes.OpenAPIHTMLWithTemplate | info/routes.go:66-77 | a rendered page is answered with 200, text/html and the page; a render error with a 500 problem |
| InfoRoutes.BuiltHandlerRendersPage | info/routes.go:57-78 | for a handler built by NewInfoHandler, the page answers 200 iff the template renders |
| ResponderProblem.NormalizeStatusMeta | responder/problem.go:49-63 | level 0 becomes Error and others are kept; an empty title becomes the status text; an empty log message becomes the title; an empty type becomes "https://httpstatuses.io/<status>" |
| ResponderProblem.NormalizeIdempotent | responder/problem.go:49-63 | normalising twice is normalising once |
| ResponderProblem.NormalizeKeepsCompleteMeta | responder/problem.go:49-63 | complete metadata is unchanged; empty metadata gets the status text, the title as message, Error and the default type |
| ResponderProblem.StatusMetaFor | responder/problem.go:21-27 | a listed status gives its normalised entry; any other gives the normalised empty entry |
| ResponderProblem.ConfiguredStatusReported | responder/problem.go:21-27 | status metadata configured by the option is what statusMetaFor reports, with its defaults filled in |
| ResponderProblem.DefaultMetaFor500 | responder/problem.go:21-27 | the default responder reports 500 as "Internal Server Error" at Error level with the default type |
| ResponderProblem.BuildProblemDetails | responder/problem.go:29-39 | status, detail from the error message, title and type from the metadata, and the request instance |
| ResponderProblem.ProblemTailShape | responder/problem.go:11-19 | the members after "type" start with title and status and never repeat "type" |
| ResponderProblem.ProblemJsonMembers | responder/problem.go:11-19 | the problem document always has title and status, and has "type" iff the type URI is non-empty |
| ResponderProblem.TailNames | responder/problem.go:12 | an optional first member followed by a tail without the name contains the name iff the first member has it |
| ResponderProblem.TailMembers | responder/problem.go:13-14 | a lookup past a first member with another name finds the tail's first match |
| ResponderProblem.MemberOfFirst | responder/problem.go:11-19 | a member lookup returns the first member with that name |
| ResponderSetup.DefaultStatusMetadataContents | responder/responder.go:129-135 | the default table has exactly 500 at Error, 400 and 401 at Warn, each titled and logged with its status text |
| ResponderSetup.ConfiguredMeta | responder/responder.go:84-108 | WithStatusMetadata keeps the type, makes level 0 Error, makes an empty title the status text and an empty message the title |
| ResponderSetup.InfoLevelBecomesError | responder/responder.go:89-92 | slog.LevelInfo is 0, so configured Info metadata is stored at Error |
| ResponderSetup.Responder.constructor | responder/responder.go:51-62 | default logger and default table, then the non-nil options in order |
| ResponderSetup.Responder.Apply | responder/responder.go:66-108 | running one option closure changes the record exactly as `Applied` says |
| ResponderSetup.ApplyAllSnoc | responder/responder.go:56-60 | options apply in order; a nil option changes nothing |
| ResponderSetup.StatusMetadataWritesOneKey | responder/responder.go:84-108 | WithStatusMetadata writes only its status key, with the filled entry; other keys and the logger are unchanged |
| ResponderSetup.LoggerNeverCleared | responder/responder.go:66-72 | a set logger stays set whatever options follow, and is unchanged when every WithLogger gets nil |
| ResponderSetup.LoggerOf | responder/responder.go:115-120 | the responder's own logger, or the default when the responder or its logger is nil |
| ResponderSetup.ClassifyError | responder/responder.go:122-127 | (0, false) without a classifier, otherwise the classifier's answer |
| ResponderResponse.MarshalPayload | responder/response.go:73-82 | an encoding error is passed on; otherwise the result is the encoding, followed by a newline only when it does not already end in one |
| ResponderResponse.ResolveContentType | responder/response.go:92-97 | the provided type when non-empty, otherwise the fallback |
| ResponderResponse.DispatchStatus | responder/response.go:45-56 | a classified error uses the classifier's status; anything else, or no classifier, uses 500 |
| ResponderResponse.WriteResponse | responder/response.go:84-90 | the writer ends with the content type set, the status written, then the body written |
| ResponderResponse.RespondWithJSONAs | responder/response.go:58-71 | a nil writer is left alone; otherwise the writer ends as the response for the encoded payload, or as a 500 text error when encoding fails |
| ResponderResponse.RespondWithJSON | responder/response.go:39-41 | as above, with application/json |
| ResponderResponse.HandleAPIError | responder/response.go:11-20 | a nil error writes nothing; otherwise the writer ends as the problem document of the status and error |
| ResponderResponse.HandleInternalServerError | responder/response.go:23-25 | HandleAPIError with 500 |
| ResponderResponse.HandleBadRequestError | responder/response.go:28-30 | HandleAPIError with 400 |
| ResponderResponse.HandleUnauthorizedError | responder/response.go:33-35 | HandleAPIError with 401 |
| ResponderResponse.HandleErrors | responder/response.go:45-56 | a nil error is a no-op; otherwise the problem response at the dispatched status |
| ResponderResponse.WriteResponseOutcome | responder/response.go:84-90 | on a fresh writer: the given status and content type, and the body appended |
| ResponderResponse.RespondEncoded | responder/response.go:58-71 | an encodable payload is answered with its status, the resolved content type and the encoding plus a final newline |
| ResponderResponse.RespondUnencodable | responder/response.go:63-68 | an encoding failure answers 500 with the body "Internal Server Error\n" instead of the requested status |
| ResponderResponse.StatusLineIsFinal | responder/response.go:84-90 | once a status is sent, a later response cannot change it |
| ResponderResponse.APIErrorOutcome | responder/response.go:11-20 | on a fresh writer: the given status, application/problem+json, and a document whose status member is that status |
| ResponderResponse.HandleErrorsOutcome | responder/response.go:45-56 | the dispatched status is sent with the problem content type, and the document's status and title are that status and its metadata title |
| ResponderResponse.UnclassifiedIs500 | responder/response.go:55 | without a classifier every error becomes 500 titled "Internal Server Error" |
| ProbeHelpers.ContextOrBackground | probe/helpers.go:8-13 | a non-nil context is kept; nil becomes the background context |
| ProbeHelpers.DefaultExpectationIsSuccessClass | probe/helpers.go:15-17 | a status is accepted iff it is in the 2xx class |
| ProbeHelpers.DefaultExpectationBoundaries | probe/helpers.go:15-17 | 199 and 300 are rejected; 200 and 299 are accepted |
| ProbeHelpers.NilComponentError | probe/helpers.go:19-21 | the message is "<name> probe: <component> is nil", with no cause |
| ProbeHTTPOptions.AllowedStatusesMeaning | probe/http_options.go:90-104 | no statuses means 2xx; otherwise exactly the listed codes are accepted |
| ProbeHTTPOptions.HTTPProbeConfig.constructor | probe/http_options.go:28-46 | the defaults, then the non-nil options in order, then nil client and expectation refilled |
| ProbeHTTPOptions.HTTPProbeConfig.Apply | probe/http_options.go:76-125 | running one option closure changes the record exactly as `Applied` says |
| ProbeHTTPOptions.ApplyAllSnoc | probe/http_options.go:34-38 | options apply in order; a nil option changes nothing |
| ProbeHTTPOptions.Refilled | probe/http_options.go:39-44 | a nil client becomes the default client, a nil expectation the 2xx predicate; nothing else changes |
| ProbeHTTPOptions.BuiltConfig | probe/http_options.go:28-46 | the built config has a client (the last one given, or the default), an expectation, the mutators and validators in call order, and draining by default |
| ProbeHTTPOptions.ListOptionsAccumulate | probe/http_options.go:107-118 | the mutator and validator options append in call order |
| ProbeHTTPOptions.ReplacingOptionsLastWins | probe/http_options.go:76-80 | the client and drain options replace: the last one given wins |
| ProbeHTTPOptions.DefaultExpectationKept | probe/http_options.go:28-46 | without expectation options the built config accepts by the 2xx predicate |
| ProbeHTTPOptions.KeepsExpectation | probe/http_options.go:76-125 | only the two expectation options change the expectation |
| ProbeHTTPOptions.MutateAllAppend | probe/http_options.go:48-58 | mutators run in order and the first error stops the rest |
| ProbeHTTPOptions.NilMutatorSkipped | probe/http_options.go:50-52 | a nil mutator has no effect |
| ProbeHTTPOptions.HTTPProbeConfig.ApplyMutators | probe/http_options.go:48-58 | the loop gives the fail-fast result of the mutator list |
| ProbeHTTPOptions.FirstFailureCharacterised | probe/http_options.go:64-72 | no error iff every non-nil validator accepts; an error is the first rejecting validator's |
| ProbeHTTPOptions.Validation | probe/http_options.go:60-73 | a rejected status gives "unexpected status %d %s" before any validator runs; otherwise the first validator error |
| ProbeHTTPOptions.HTTPProbeConfig.ValidateResponse | probe/http_options.go:60-73 | the method returns the validation of the current config |
| ProbeHTTPOptions.DefaultValidation | probe/http_options.go:28-73 | a config built without options rejects exactly non-2xx statuses |
| Probe.NewPingProbe | probe/probe.go:31-45 | the constructor always returns a non-nil probe |
| Probe.PingWithoutFunction | probe/probe.go:33-35 | a nil ping function fails every call with "<name> probe: ping function is nil" |
| Probe.PingOutcome | probe/probe.go:36-44 | the ping sees the context or the background one; success is nil; a failure reads "<name> probe failed: …" and unwraps to the ping's error |
| Probe.PingNilContextIsBackground | probe/probe.go:36-38 | a nil context behaves as the background context |
| Probe.NewMongoPingProbe | probe/probe.go:54-74 | the constructor always returns a non-nil probe |
| Probe.MongoOutcome | probe/probe.go:56-72 | a nil client fails without a ping; otherwise the ping uses the given preference or Primary, and a failure unwraps to the client's error |
| Probe.NewDBPingProbe | probe/probe.go:77-91 | the constructor always returns a non-nil probe |
| Probe.DBOutcome | probe/probe.go:79-89 | a nil database fails without a ping; otherwise a failure reads "<name> probe failed: …" and unwraps to the driver's error |
| Probe.RequestVerb | probe/probe.go:102-105 | the verb is the trimmed, upper-cased method, or GET when it is blank |
| Probe.NewHTTPProbe | probe/probe.go:95-133 | the constructor always returns a non-nil probe |
| Probe.HTTPProbeNeedsTarget | probe/probe.go:97-100 | a blank target fails before any request is built |
| Probe.HTTPProbeStatus | probe/probe.go:111-131 | once the request is built and answered, the probe succeeds iff the status is 2xx, otherwise "<name> probe received status N" |
| Probe.HTTPProbeTransportFailure | probe/probe.go:121-124 | a transport error reads "<name> probe request failed: …" and unwraps to it |
| GoStd.WrapPreservesCause | probe/probe.go:40-42 | `%w` wrapping unwraps to the cause, keeps every errors.Is match and prefixes the text |
| GoStd.TrimSpace | probe/probe.go:97 | the result is a slice of the input with no space at either end, and empty iff the input is all space |
| GoStd.ToUpper | probe/probe.go:102 | the same length; each lower-case ASCII letter becomes its upper-case letter and every other character is unchanged |
| GoHttp.CanonicalHeaderKeyIdempotent | router/std.go:181 | canonicalising a header name twice is canonicalising once |
| GoHttp.SetThenGet | router/std.go:122 | after Header().Set, Get of the same name returns the value and other names are unchanged |
| GoHttp.ResponseWriter.WriteHeader | responder/response.go:86 | only the first status written counts |
| GoHttp.ResponseWriter.Write | responder/response.go:87 | a write sends an implicit 200 first; a broken connection drops the data and returns its error |
| GoHttp.HttpError | responder/response.go:66 | http.Error: text/plain, nosniff, the status and the message with a newline |

## Left out

- slog output: the log records of `logProblem`, of the logging middleware's `Debug` calls and of the encode and write failures are not modelled. `LogRequest` returns the record it would log. The variadic `logMsg` arguments of the error handlers only reach the log, so they are omitted.
- The timeout and OpenAPI validation stages are opaque values that record what they were built from. `http.TimeoutHandler` and the kin-openapi validator are not modelled.
- `http.ServeMux` registration in `New`: the model returns the composed handler instead of the mux.
- Context deadlines: `context.WithTimeout` is a context value that records its timeout. A probe's result is whatever the probe function returns for that context.
- The network and the drivers: `http.NewRequestWithContext` and the client round trip are parameters of `Transport`. The ping collaborators are parameters. Body draining and closing are not modelled.
- The trace ID (ULID randomness), the RFC 3339 timestamp and the JSON encoder (`jsonutil.Marshal`) are inputs held in `Env`.
- Template execution is a parameter returning the page or an error. Output a template writes before it fails is not modelled.
- `cloneStrings` and `sanitizeConfig` are identities, because Dafny sequences are values. A nil slice and an empty one are the same value, so `filterProbes` returning nil for an empty result is the empty sequence.
- The AsyncAPI handlers (`info/routes.go:80-118`) use fields that the `InfoHandler` struct does not declare, so they are not modelled.
- `NewHTTPProbe`: the option-based config layer is modelled on its own. It is not wired into the probe, because the shown constructor takes no options.
- Requests always carry a URL path. The nil-URL case of `requestInstance` is not modelled.
- `ProbeHTTPOptions.HTTPProbeConfig.ApplyMutators`: a mutator's in-place edit of the request is modelled as a returned request value.
- `InfoProbes.RunChecksOutcome`: it is stated about the index of the first failing probe. The error text for that index comes from `ChecksOutcome`, whose meaning `ClassifyKinds` proves.
- `RouterStd.RedactHeaders`: two hide names with the same canonical form redact the placeholder a second time, as the code does. `RedactTwiceCountsPlaceholder` states that behaviour.
- GoStd.ToUpper: only ASCII letters are upper-cased, while Go's `strings.ToUpper` maps every rune through `unicode.ToUpper`. This only changes a probe's HTTP method when it holds non-ASCII letters. Such a method is not a valid HTTP token either way, and building the request is a `Transport` parameter.
- GoStd.Is: `errors.Is` compares errors by value along the `Unwrap` chain, so two `errors.New` values with the same text match. In Go, such sentinels match only by identity. No property of the model depends on two distinct errors with equal text.
- GoHttp.ResponseWriter.WriteHeader: the panic Go raises for a status code outside 100-999 is not modelled. The core only writes fixed codes and the caller's status.
