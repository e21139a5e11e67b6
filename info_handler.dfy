/** info/handler.go: the InfoHandler record, its defaults, and the option
    setters that configure it. */
module InfoSetup {
  import opened Wrappers
  import opened GoStd
  import opened GoHttp
  import opened Json
  import opened Probe
  import opened InfoProbes
  import ResponderSetup

  /** InfoProvider: the version payload; `None` is a nil `any`. */
  type InfoProvider = () -> Option<Json>

  /** SwaggerProvider: the OpenAPI document, or why it is unavailable. */
  type SwaggerProvider = () -> Result<seq<byte>, Error>

  /** TemplateDataProvider: the data for the HTML page; `None` is nil. */
  type TemplateDataProvider = (Request, string) -> Option<Json>

  /** The parsed templates of info/template.go, and a caller's own. */
  datatype Template = StoplightTemplate | ScalarTemplate | SwaggerUITemplate | RedocTemplate | CustomTemplate(id: nat)

  /** The UIType values. */
  const UIStoplight := "stoplight"
  const UIScalar := "scalar"
  const UISwaggerUI := "swaggerui"
  const UIRedoc := "redoc"

  /** The template WithUIType selects: the matching one for the four known
      values, Stoplight for anything else. */
  function TemplateFor(uiType: string): (t: Template)
    ensures uiType == UIScalar ==> t == ScalarTemplate
    ensures uiType == UISwaggerUI ==> t == SwaggerUITemplate
    ensures uiType == UIRedoc ==> t == RedocTemplate
    ensures uiType !in {UIScalar, UISwaggerUI, UIRedoc} ==> t == StoplightTemplate
    ensures !t.CustomTemplate?
  {
    if uiType == UIScalar then ScalarTemplate
    else if uiType == UISwaggerUI then SwaggerUITemplate
    else if uiType == UIRedoc then RedocTemplate
    else StoplightTemplate
  }

  /** defaultTemplateDataProvider: an object with the single member BaseURL. */
  function DefaultTemplateData(baseURL: string): (j: Json)
    ensures j.JObject? && MemberNames(j.members) == ["BaseURL"]
    ensures Member(j, "BaseURL") == Some(JString(baseURL))
  {
    JObject([("BaseURL", JString(baseURL))])
  }

  const DefaultTemplateDataProvider: TemplateDataProvider := (r: Request, baseURL: string) => Some(DefaultTemplateData(baseURL))

  /** The default providers of NewInfoHandler: an empty object, and an
      error for the missing OpenAPI document. */
  const DefaultInfoProvider: InfoProvider := () => Some(JObject([]))
  const DefaultSwaggerProvider: SwaggerProvider := () => Failure(New("api swagger provider not configured"))

  /** A snapshot of the InfoHandler record. `openapiTemplate` and
      `dataProvider` may be nil in the source, so they are options here. */
  datatype InfoState = InfoState(
    responder: ResponderSetup.Responder,
    baseURL: string,
    infoProvider: InfoProvider,
    swaggerProvider: SwaggerProvider,
    openapiTemplate: Option<Template>,
    dataProvider: Option<TemplateDataProvider>,
    probeTimeout: Duration,
    livenessChecks: seq<Func>,
    readinessChecks: seq<Func>,
    uiType: string)

  /** The record NewInfoHandler builds around a fresh responder. */
  function Defaults(responder: ResponderSetup.Responder): InfoState {
    InfoState(responder, "", DefaultInfoProvider, DefaultSwaggerProvider, Some(StoplightTemplate),
              Some(DefaultTemplateDataProvider), DefaultProbeTimeout, [], [], UIStoplight)
  }

  /** The InfoOption values of handler.go, and a nil option. */
  datatype InfoOption =
    | NilInfoOption
    | WithInfoResponder(responder: Option<ResponderSetup.Responder>)
    | WithBaseURL(baseURL: string)
    | WithInfoProvider(infoProvider: Option<InfoProvider>)
    | WithSwaggerProvider(swaggerProvider: Option<SwaggerProvider>)
    | WithOpenAPITemplate(template: Option<Template>)
    | WithOpenAPITemplateData(dataProvider: Option<TemplateDataProvider>)
    | WithProbeTimeout(timeout: Duration)
    | WithLivenessChecks(checks: seq<Func>)
    | WithReadinessChecks(checks: seq<Func>)
    | WithUIType(uiType: string)

  function Applied(s: InfoState, opt: InfoOption): InfoState
    requires !opt.NilInfoOption?
  {
    match opt
    case WithInfoResponder(r) => if r.Some? then s.(responder := r.value) else s
    case WithBaseURL(u) => s.(baseURL := u)
    case WithInfoProvider(p) => if p.Some? then s.(infoProvider := p.value) else s
    case WithSwaggerProvider(p) => if p.Some? then s.(swaggerProvider := p.value) else s
    case WithOpenAPITemplate(t) => if t.Some? then s.(openapiTemplate := t) else s
    case WithOpenAPITemplateData(p) => if p.Some? then s.(dataProvider := p) else s
    case WithProbeTimeout(t) => if t > 0 then s.(probeTimeout := t) else s
    case WithLivenessChecks(cs) => s.(livenessChecks := NonNil(cs))
    case WithReadinessChecks(cs) => s.(readinessChecks := NonNil(cs))
    case WithUIType(u) => s.(uiType := u, openapiTemplate := Some(TemplateFor(u)))
  }

  /** The option loop of NewInfoHandler. */
  function ApplyAll(s: InfoState, opts: seq<InfoOption>): InfoState
    decreases |opts|
  {
    if |opts| == 0 then s
    else if opts[0].NilInfoOption? then ApplyAll(s, opts[1..])
    else ApplyAll(Applied(s, opts[0]), opts[1..])
  }

  lemma {:induction false} ApplyAllSnoc(s: InfoState, opts: seq<InfoOption>, opt: InfoOption)
    ensures ApplyAll(s, opts + [opt]) ==
      if opt.NilInfoOption? then ApplyAll(s, opts) else Applied(ApplyAll(s, opts), opt)
    decreases |opts|
  {
    if |opts| > 0 {
      assert (opts + [opt])[1..] == opts[1..] + [opt];
      var next := if opts[0].NilInfoOption? then s else Applied(s, opts[0]);
      ApplyAllSnoc(next, opts[1..], opt);
    }
  }

  // ---------------------------------------------------------------------
  // What the setters do

  /** The options that take a possibly nil collaborator leave the record as
      it is when given nil. */
  lemma NilArgumentsIgnored(s: InfoState)
    ensures Applied(s, WithInfoResponder(None)) == s
    ensures Applied(s, WithInfoProvider(None)) == s
    ensures Applied(s, WithSwaggerProvider(None)) == s
    ensures Applied(s, WithOpenAPITemplate(None)) == s
    ensures Applied(s, WithOpenAPITemplateData(None)) == s
  {
  }

  /** WithProbeTimeout changes the timeout exactly when it is positive, and
      nothing else. */
  lemma ProbeTimeoutOption(s: InfoState, t: Duration)
    ensures Applied(s, WithProbeTimeout(t)).probeTimeout == (if t > 0 then t else s.probeTimeout)
    ensures Applied(s, WithProbeTimeout(t)) == s.(probeTimeout := Applied(s, WithProbeTimeout(t)).probeTimeout)
  {
  }

  /** The check options replace their list with the filtered argument: what
      was there before does not matter, and the other list is untouched. */
  lemma CheckOptionsReplace(s: InfoState, old_: seq<Func>, cs: seq<Func>)
    ensures Applied(s, WithLivenessChecks(cs)).livenessChecks == NonNil(cs)
    ensures Applied(s, WithLivenessChecks(cs)) == Applied(s.(livenessChecks := old_), WithLivenessChecks(cs))
    ensures Applied(s, WithReadinessChecks(cs)).readinessChecks == NonNil(cs)
    ensures Applied(s, WithReadinessChecks(cs)) == Applied(s.(readinessChecks := old_), WithReadinessChecks(cs))
    ensures Applied(s, WithLivenessChecks(cs)).readinessChecks == s.readinessChecks
    ensures Applied(s, WithReadinessChecks(cs)).livenessChecks == s.livenessChecks
  {
  }

  /** WithUIType stores the value as given and installs its template; an
      unknown value still stores the value but installs Stoplight. */
  lemma UITypeOption(s: InfoState, u: string)
    ensures Applied(s, WithUIType(u)).uiType == u
    ensures Applied(s, WithUIType(u)).openapiTemplate == Some(TemplateFor(u))
    ensures u !in {UIScalar, UISwaggerUI, UIRedoc, UIStoplight} ==>
      Applied(s, WithUIType(u)).openapiTemplate == Some(StoplightTemplate)
  {
  }

  /** WithBaseURL sets the base URL whatever it is, the empty one included. */
  lemma BaseURLOption(s: InfoState, u: string)
    ensures Applied(s, WithBaseURL(u)).baseURL == u
  {
  }

  /** The record NewInfoHandler keeps: a template and a data provider are
      always installed and the probe timeout stays positive, whatever
      options are passed, so the handlers' nil checks on them only matter
      for a record built by hand. */
  predicate Configured(s: InfoState) {
    s.openapiTemplate.Some? && s.dataProvider.Some? && s.probeTimeout > 0
  }

  lemma {:induction false} OptionsKeepConfigured(s: InfoState, opts: seq<InfoOption>)
    requires Configured(s)
    ensures Configured(ApplyAll(s, opts))
    decreases |opts|
  {
    if |opts| > 0 {
      var next := if opts[0].NilInfoOption? then s else Applied(s, opts[0]);
      OptionsKeepConfigured(next, opts[1..]);
    }
  }

  /** The check lists of a built handler never hold nil probes. */
  predicate ChecksNonNil(s: InfoState) {
    && (forall k :: 0 <= k < |s.livenessChecks| ==> s.livenessChecks[k].Func?)
    && (forall k :: 0 <= k < |s.readinessChecks| ==> s.readinessChecks[k].Func?)
  }

  lemma {:induction false} OptionsKeepChecksNonNil(s: InfoState, opts: seq<InfoOption>)
    requires ChecksNonNil(s)
    ensures ChecksNonNil(ApplyAll(s, opts))
    decreases |opts|
  {
    if |opts| > 0 {
      var next := if opts[0].NilInfoOption? then s else Applied(s, opts[0]);
      if !opts[0].NilInfoOption? {
        match opts[0]
        case WithLivenessChecks(cs) => assert next.livenessChecks == NonNil(cs);
        case WithReadinessChecks(cs) => assert next.readinessChecks == NonNil(cs);
        case _ =>
      }
      OptionsKeepChecksNonNil(next, opts[1..]);
    }
  }

  /** The InfoHandler record. The embedded *Responder is the `responder`
      field; the routes call its methods. */
  class InfoHandler {
    var responder: ResponderSetup.Responder
    var baseURL: string
    var infoProvider: InfoProvider
    var swaggerProvider: SwaggerProvider
    var openapiTemplate: Option<Template>
    var dataProvider: Option<TemplateDataProvider>
    var probeTimeout: Duration
    var livenessChecks: seq<Func>
    var readinessChecks: seq<Func>
    var uiType: string

    /** The responder NewInfoHandler creates before the options run. */
    ghost const initialResponder: ResponderSetup.Responder

    function Value(): InfoState
      reads this
    {
      InfoState(responder, baseURL, infoProvider, swaggerProvider, openapiTemplate, dataProvider,
                probeTimeout, livenessChecks, readinessChecks, uiType)
    }

    /** NewInfoHandler(opts...): the defaults around a new responder, then
        every non-nil option in order. */
    constructor (opts: seq<InfoOption>)
      ensures fresh(initialResponder)
      ensures initialResponder.Value() == ResponderSetup.DefaultResponderState
      ensures Value() == ApplyAll(Defaults(initialResponder), opts)
    {
      var r := new ResponderSetup.Responder([]);
      responder := r;
      initialResponder := r;
      baseURL := "";
      infoProvider := DefaultInfoProvider;
      swaggerProvider := DefaultSwaggerProvider;
      openapiTemplate := Some(StoplightTemplate);
      dataProvider := Some(DefaultTemplateDataProvider);
      probeTimeout := DefaultProbeTimeout;
      livenessChecks := [];
      readinessChecks := [];
      uiType := UIStoplight;
      new;
      var i := 0;
      while i < |opts|
        invariant 0 <= i <= |opts|
        invariant Value() == ApplyAll(Defaults(initialResponder), opts[..i])
        invariant initialResponder.Value() == ResponderSetup.DefaultResponderState
      {
        ApplyAllSnoc(Defaults(initialResponder), opts[..i], opts[i]);
        assert opts[..i + 1] == opts[..i] + [opts[i]];
        if !opts[i].NilInfoOption? {
          Apply(opts[i]);
        }
        i := i + 1;
      }
      assert opts[..|opts|] == opts;
    }

    /** One option closure run on the record. */
    method Apply(opt: InfoOption)
      requires !opt.NilInfoOption?
      modifies this
      ensures Value() == Applied(old(Value()), opt)
    {
      match opt
      case WithInfoResponder(r) =>
        if r.Some? {
          responder := r.value;
        }
      case WithBaseURL(u) => baseURL := u;
      case WithInfoProvider(p) =>
        if p.Some? {
          infoProvider := p.value;
        }
      case WithSwaggerProvider(p) =>
        if p.Some? {
          swaggerProvider := p.value;
        }
      case WithOpenAPITemplate(t) =>
        if t.Some? {
          openapiTemplate := t;
        }
      case WithOpenAPITemplateData(p) =>
        if p.Some? {
          dataProvider := p;
        }
      case WithProbeTimeout(t) =>
        if t > 0 {
          probeTimeout := t;
        }
      case WithLivenessChecks(cs) =>
        livenessChecks := FilterProbes(cs);
      case WithReadinessChecks(cs) =>
        readinessChecks := FilterProbes(cs);
      case WithUIType(u) =>
        uiType := u;
        if u == UIScalar {
          openapiTemplate := Some(ScalarTemplate);
        } else if u == UISwaggerUI {
          openapiTemplate := Some(SwaggerUITemplate);
        } else if u == UIRedoc {
          openapiTemplate := Some(RedocTemplate);
        } else if u == UIStoplight {
          openapiTemplate := Some(StoplightTemplate);
        } else {
          openapiTemplate := Some(StoplightTemplate);
        }
    }
  }

  /** A handler built by NewInfoHandler is configured: its template, data
      provider and timeout are set. */
  lemma NewInfoHandlerConfigured(responder: ResponderSetup.Responder, opts: seq<InfoOption>)
    ensures Configured(ApplyAll(Defaults(responder), opts))
  {
    OptionsKeepConfigured(Defaults(responder), opts);
  }
}
