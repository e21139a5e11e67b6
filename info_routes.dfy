/** info/routes.go: the status, probe, version and OpenAPI endpoints. Each
    handler is a method on the response writer, proved against a function
    that gives the response it leaves; the lemmas say what a client then
    receives. */
module InfoRoutes {
  import opened Wrappers
  import opened GoStd
  import opened GoHttp
  import opened Json
  import opened Probe
  import opened ResponderSetup
  import opened ResponderProblem
  import opened ResponderResponse
  import opened InfoProbes
  import opened InfoSetup

  /** What the routes take from outside: the responder's environment and
      html/template execution, which renders a template with its data or
      fails. */
  datatype RouteEnv = RouteEnv(responses: Env, execute: (Template, Json) -> Result<seq<byte>, Error>)

  const HtmlContentType := "text/html"
  const TemplateMissing := "openapi template not configured"

  // ---------------------------------------------------------------------
  // The responses

  /** A probe endpoint: a 503 problem when the checks fail, else 200 with
      the status word. */
  function ProbeRouteState(rs: ResponderState, st: WriterState, r: Request, outcome: Option<Error>,
                           word: string, env: Env, failure: Option<Error>): WriterState {
    if outcome.Some? then APIErrorState(rs, st, Some(r), StatusServiceUnavailable, outcome.value, env, failure)
    else RespondState(st, StatusOK, ProbeJson(ProbePayload(word, [])), JsonContentType, env.encode, failure)
  }

  /** The version payload: the provider's, or an empty object for nil. */
  function VersionPayload(s: InfoState): (j: Json)
    ensures s.infoProvider().Some? ==> j == s.infoProvider().value
    ensures s.infoProvider().None? ==> j == JObject([])
  {
    var payload := s.infoProvider();
    if payload.None? then JObject([]) else payload.value
  }

  function OpenAPIJSONState(s: InfoState, rs: ResponderState, st: WriterState, r: Request,
                            env: Env, failure: Option<Error>): WriterState {
    var st1 := SetHeaderState(st, "Content-Type", JsonContentType);
    match s.swaggerProvider()
    case Failure(e) => APIErrorState(rs, st1, Some(r), StatusInternalServerError, e, env, failure)
    case Success(bytes) =>
      var st2 := WriteState(st1, bytes, failure);
      if failure.Some? then APIErrorState(rs, st2, Some(r), StatusInternalServerError, failure.value, env, failure)
      else st2
  }

  /** The data the HTML page is rendered with: the provider's, or the
      default {"BaseURL": baseURL} when there is no provider or it yields
      nil. */
  function TemplateData(s: InfoState, r: Request): (j: Json)
    ensures s.dataProvider.Some? && s.dataProvider.value(r, s.baseURL).Some? ==> j == s.dataProvider.value(r, s.baseURL).value
    ensures s.dataProvider.None? || s.dataProvider.value(r, s.baseURL).None? ==> j == DefaultTemplateData(s.baseURL)
  {
    var data := if s.dataProvider.Some? then s.dataProvider.value(r, s.baseURL) else None;
    if data.None? then DefaultTemplateData(s.baseURL) else data.value
  }

  function OpenAPIHTMLState(s: InfoState, rs: ResponderState, st: WriterState, r: Request,
                            env: RouteEnv, failure: Option<Error>): WriterState {
    var st1 := SetHeaderState(st, "Content-Type", HtmlContentType);
    if s.openapiTemplate.None? then
      APIErrorState(rs, st1, Some(r), StatusInternalServerError, New(TemplateMissing), env.responses, failure)
    else
      match env.execute(s.openapiTemplate.value, TemplateData(s, r))
      case Failure(e) => APIErrorState(rs, st1, Some(r), StatusInternalServerError, e, env.responses, failure)
      case Success(page) =>
        var st2 := WriteState(st1, page, failure);
        if failure.Some? then APIErrorState(rs, st2, Some(r), StatusInternalServerError, failure.value, env.responses, failure)
        else st2
  }

  // ---------------------------------------------------------------------
  // The handlers

  /** GetStatus */
  method GetStatus(ih: InfoHandler, w: ResponseWriter, r: Request, env: RouteEnv)
    modifies w
    ensures w.State() == ProbeRouteState(ih.responder.Value(), old(w.State()), r, None, "HEALTHY", env.responses, w.failure)
  {
    RespondProbe(ih.responder, w, StatusOK, "HEALTHY", [], env.responses);
  }

  /** GetHealthz: the liveness checks. */
  method GetHealthz(ih: InfoHandler, w: ResponseWriter, r: Request, env: RouteEnv)
    modifies w
    ensures w.State() == ProbeRouteState(ih.responder.Value(), old(w.State()), r,
                                         ChecksOutcome(ih.probeTimeout, r.context, ih.livenessChecks),
                                         "ok", env.responses, w.failure)
  {
    var err, _ := RunChecks(ih.probeTimeout, r.context, ih.livenessChecks);
    if err.Some? {
      HandleAPIError(ih.responder, w, Some(r), StatusServiceUnavailable, err, env.responses);
      return;
    }
    RespondProbe(ih.responder, w, StatusOK, "ok", [], env.responses);
  }

  /** GetReadyz: the readiness checks. */
  method GetReadyz(ih: InfoHandler, w: ResponseWriter, r: Request, env: RouteEnv)
    modifies w
    ensures w.State() == ProbeRouteState(ih.responder.Value(), old(w.State()), r,
                                         ChecksOutcome(ih.probeTimeout, r.context, ih.readinessChecks),
                                         "ready", env.responses, w.failure)
  {
    var err, _ := RunChecks(ih.probeTimeout, r.context, ih.readinessChecks);
    if err.Some? {
      HandleAPIError(ih.responder, w, Some(r), StatusServiceUnavailable, err, env.responses);
      return;
    }
    RespondProbe(ih.responder, w, StatusOK, "ready", [], env.responses);
  }

  /** GetVersion */
  method GetVersion(ih: InfoHandler, w: ResponseWriter, r: Request, env: RouteEnv)
    modifies w
    ensures w.State() == RespondState(old(w.State()), StatusOK, VersionPayload(ih.Value()), JsonContentType,
                                      env.responses.encode, w.failure)
  {
    var payload := ih.infoProvider();
    var body := if payload.None? then JObject([]) else payload.value;
    RespondWithJSON(ih.responder, w, StatusOK, body, env.responses);
  }

  /** GetOpenAPIJSON */
  method GetOpenAPIJSON(ih: InfoHandler, w: ResponseWriter, r: Request, env: RouteEnv)
    modifies w
    ensures w.State() == OpenAPIJSONState(ih.Value(), ih.responder.Value(), old(w.State()), r, env.responses, w.failure)
  {
    w.SetHeader("Content-Type", JsonContentType);
    var bytes := ih.swaggerProvider();
    if bytes.Failure? {
      HandleAPIError(ih.responder, w, Some(r), StatusInternalServerError, Some(bytes.error), env.responses);
      return;
    }
    var err := w.Write(bytes.value);
    if err.Some? {
      HandleAPIError(ih.responder, w, Some(r), StatusInternalServerError, err, env.responses);
      return;
    }
  }

  /** GetOpenAPIHTML */
  method GetOpenAPIHTML(ih: InfoHandler, w: ResponseWriter, r: Request, env: RouteEnv)
    modifies w
    ensures w.State() == OpenAPIHTMLState(ih.Value(), ih.responder.Value(), old(w.State()), r, env, w.failure)
  {
    w.SetHeader("Content-Type", HtmlContentType);
    if ih.openapiTemplate.None? {
      var err := New(TemplateMissing);
      HandleAPIError(ih.responder, w, Some(r), StatusInternalServerError, Some(err), env.responses);
      return;
    }
    var data: Option<Json> := None;
    if ih.dataProvider.Some? {
      data := ih.dataProvider.value(r, ih.baseURL);
    }
    if data.None? {
      data := Some(DefaultTemplateData(ih.baseURL));
    }
    var page := env.execute(ih.openapiTemplate.value, data.value);
    if page.Failure? {
      HandleAPIError(ih.responder, w, Some(r), StatusInternalServerError, Some(page.error), env.responses);
      return;
    }
    var err := w.Write(page.value);
    if err.Some? {
      HandleAPIError(ih.responder, w, Some(r), StatusInternalServerError, err, env.responses);
      return;
    }
  }

  // ---------------------------------------------------------------------
  // What the client receives, on a fresh response over a working
  // connection with an encoder that accepts every payload

  /** A probe endpoint answers 503 with a problem document when its checks
      fail and 200 with its status word otherwise. */
  lemma ProbeRouteOutcome(rs: ResponderState, r: Request, outcome: Option<Error>, word: string, env: Env)
    requires forall j :: env.encode(j).Success?
    ensures var st := ProbeRouteState(rs, Unwritten, r, outcome, word, env, None);
      && StatusSent(st) == (if outcome.Some? then StatusServiceUnavailable else StatusOK)
      && GetIn(st.header, "Content-Type") == (if outcome.Some? then ProblemContentType else JsonContentType)
      && (outcome.None? ==> st.body == MarshalPayload(env.encode, ProbeJson(ProbePayload(word, []))).value)
  {
    if outcome.Some? {
      APIErrorOutcome(rs, Unwritten, Some(r), StatusServiceUnavailable, outcome.value, env);
    } else {
      RespondEncoded(Unwritten, StatusOK, ProbeJson(ProbePayload(word, [])), JsonContentType, env.encode);
    }
  }

  /** GetHealthz answers 503 exactly when some liveness probe fails, and
      GetReadyz likewise for the readiness probes. */
  lemma HealthzOutcome(s: InfoState, rs: ResponderState, r: Request, checks: seq<Func>, word: string, env: Env)
    requires forall j :: env.encode(j).Success?
    ensures var pctx := WithTimeout(r.context, EffectiveTimeout(s.probeTimeout));
      var st := ProbeRouteState(rs, Unwritten, r, ChecksOutcome(s.probeTimeout, r.context, checks), word, env, None);
      StatusSent(st) == StatusServiceUnavailable <==>
        exists k :: 0 <= k < |checks| && checks[k].Func? && checks[k].run(Some(pctx)).Some?
  {
    RunChecksOutcome(s.probeTimeout, r.context, checks);
    ProbeRouteOutcome(rs, r, ChecksOutcome(s.probeTimeout, r.context, checks), word, env);
  }

  /** GetStatus always answers 200 with status HEALTHY. */
  lemma StatusOutcome(rs: ResponderState, r: Request, env: Env)
    requires forall j :: env.encode(j).Success?
    ensures StatusSent(ProbeRouteState(rs, Unwritten, r, None, "HEALTHY", env, None)) == StatusOK
    ensures Member(ProbeJson(ProbePayload("HEALTHY", [])), "status") == Some(JString("HEALTHY"))
    ensures Member(ProbeJson(ProbePayload("HEALTHY", [])), "details").None?
  {
    ProbeRouteOutcome(rs, r, None, "HEALTHY", env);
    ProbeJsonMembers("HEALTHY", []);
  }

  /** GetVersion always answers 200, with an empty object for a nil payload. */
  lemma VersionOutcome(s: InfoState, env: Env)
    requires forall j :: env.encode(j).Success?
    ensures var st := RespondState(Unwritten, StatusOK, VersionPayload(s), JsonContentType, env.encode, None);
      && StatusSent(st) == StatusOK
      && st.body == MarshalPayload(env.encode, VersionPayload(s)).value
  {
    RespondEncoded(Unwritten, StatusOK, VersionPayload(s), JsonContentType, env.encode);
  }

  /** GetOpenAPIJSON: the provider's bytes exactly, as application/json, or
      a 500 problem document when the provider fails. */
  lemma OpenAPIJSONOutcome(s: InfoState, rs: ResponderState, r: Request, env: Env)
    requires forall j :: env.encode(j).Success?
    ensures var st := OpenAPIJSONState(s, rs, Unwritten, r, env, None);
      match s.swaggerProvider()
      case Success(bytes) =>
        StatusSent(st) == StatusOK && st.body == bytes && GetIn(st.header, "Content-Type") == JsonContentType
      case Failure(_) =>
        StatusSent(st) == StatusInternalServerError && GetIn(st.header, "Content-Type") == ProblemContentType
  {
    var st1 := SetHeaderState(Unwritten, "Content-Type", JsonContentType);
    SetThenGet(Unwritten, "Content-Type", JsonContentType);
    match s.swaggerProvider()
    case Success(bytes) =>
      assert OpenAPIJSONState(s, rs, Unwritten, r, env, None) == WriteState(st1, bytes, None);
    case Failure(e) =>
      APIErrorOutcome(rs, st1, Some(r), StatusInternalServerError, e, env);
  }

  /** Over a broken connection the write of the document already committed
      the implicit 200, so the problem response that follows cannot change
      the status and adds nothing to the body. */
  lemma OpenAPIJSONWriteFailure(s: InfoState, rs: ResponderState, r: Request, env: Env, broken: Error, bytes: seq<byte>)
    requires s.swaggerProvider() == Success(bytes)
    ensures var st := OpenAPIJSONState(s, rs, Unwritten, r, env, Some(broken));
      StatusSent(st) == StatusOK && st.body == []
  {
    var st2 := WriteState(SetHeaderState(Unwritten, "Content-Type", JsonContentType), bytes, Some(broken));
    assert st2.wroteHeader && st2.code == StatusOK && st2.body == [];
    StatusLineIsFinal(st2, StatusInternalServerError,
                      ProblemFor(rs, Some(r), StatusInternalServerError, broken, env),
                      ProblemContentType, env.encode, Some(broken));
    BodyUnchangedOnBrokenConnection(st2, StatusInternalServerError,
                                    ProblemFor(rs, Some(r), StatusInternalServerError, broken, env),
                                    ProblemContentType, env.encode, broken);
  }

  /** Over a broken connection a respond call never adds to the body. */
  lemma BodyUnchangedOnBrokenConnection(st: WriterState, status: int, payload: Json, contentType: string,
                                        encode: Encoder, broken: Error)
    ensures RespondState(st, status, payload, contentType, encode, Some(broken)).body == st.body
  {
  }

  /** GetOpenAPIHTML without a template: a 500 problem document whose detail
      is "openapi template not configured". */
  lemma OpenAPIHTMLWithoutTemplate(s: InfoState, rs: ResponderState, r: Request, env: RouteEnv)
    requires s.openapiTemplate.None?
    requires forall j :: env.responses.encode(j).Success?
    ensures var st := OpenAPIHTMLState(s, rs, Unwritten, r, env, None);
      && StatusSent(st) == StatusInternalServerError
      && GetIn(st.header, "Content-Type") == ProblemContentType
      && st == APIErrorState(rs, SetHeaderState(Unwritten, "Content-Type", HtmlContentType), Some(r),
                             StatusInternalServerError, New(TemplateMissing), env.responses, None)
  {
    var st1 := SetHeaderState(Unwritten, "Content-Type", HtmlContentType);
    APIErrorOutcome(rs, st1, Some(r), StatusInternalServerError, New(TemplateMissing), env.responses);
  }

  /** GetOpenAPIHTML with a template: the rendered page as text/html with
      status 200 when rendering succeeds, a 500 problem otherwise; the page
      is rendered with the provider's data or, failing that, the default
      data. */
  lemma OpenAPIHTMLWithTemplate(s: InfoState, rs: ResponderState, r: Request, env: RouteEnv)
    requires s.openapiTemplate.Some?
    requires forall j :: env.responses.encode(j).Success?
    ensures var st := OpenAPIHTMLState(s, rs, Unwritten, r, env, None);
      match env.execute(s.openapiTemplate.value, TemplateData(s, r))
      case Success(page) =>
        StatusSent(st) == StatusOK && st.body == page && GetIn(st.header, "Content-Type") == HtmlContentType
      case Failure(_) =>
        StatusSent(st) == StatusInternalServerError && GetIn(st.header, "Content-Type") == ProblemContentType
  {
    var st1 := SetHeaderState(Unwritten, "Content-Type", HtmlContentType);
    SetThenGet(Unwritten, "Content-Type", HtmlContentType);
    match env.execute(s.openapiTemplate.value, TemplateData(s, r))
    case Success(page) =>
      assert OpenAPIHTMLState(s, rs, Unwritten, r, env, None) == WriteState(st1, page, None);
    case Failure(e) =>
      APIErrorOutcome(rs, st1, Some(r), StatusInternalServerError, e, env.responses);
  }

  /** A handler built by NewInfoHandler always has a template, so its HTML
      page answers 200 exactly when the page renders. */
  lemma BuiltHandlerRendersPage(responder: Responder, opts: seq<InfoOption>, rs: ResponderState, r: Request, env: RouteEnv)
    requires forall j :: env.responses.encode(j).Success?
    ensures var s := InfoSetup.ApplyAll(InfoSetup.Defaults(responder), opts);
      s.openapiTemplate.Some? &&
      (StatusSent(OpenAPIHTMLState(s, rs, Unwritten, r, env, None)) == StatusOK <==>
         env.execute(s.openapiTemplate.value, TemplateData(s, r)).Success?)
  {
    var s := InfoSetup.ApplyAll(InfoSetup.Defaults(responder), opts);
    NewInfoHandlerConfigured(responder, opts);
    OpenAPIHTMLWithTemplate(s, rs, r, env);
  }
}
