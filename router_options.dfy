/** router/options.go: the router's settings record, the functional options
    that change it, and the resolution of the middleware chain.

    A Go `Option` is a closure over `*options`; here each option is a value
    of `RouterOption` and `Applied` says what its closure does to a snapshot
    of the settings. The class `Options` is the `*options` record itself. */
module RouterOptions {
  import opened Wrappers
  import opened GoStd

  /** router.CORSConfig */
  datatype CORSConfig = CORSConfig(
    origins: seq<string>,
    methods: seq<string>,
    headers: seq<string>,
    allowCredentials: bool)

  /** router.Config */
  datatype Config = Config(
    timeout: Duration,
    cors: CORSConfig,
    quietdownRoutes: seq<string>,
    hideHeaders: seq<string>)

  /** An *openapi3.T document, by identity. */
  datatype Swagger = Swagger(id: nat)

  /** A router.Middleware. User-supplied middlewares are opaque values (a
      `nil` function among them); the four built-in stages record what they
      were built from. */
  datatype Middleware =
    | NilMiddleware
    | Custom(id: nat)
    | OpenAPIValidation(swagger: Swagger)
    | CorsStage(cors: CORSConfig)
    | TimeoutStage(timeout: Duration)
    | LoggingStage(logger: Logger, quietdownRoutes: seq<string>, hideHeaders: seq<string>)

  /** The router.Option values that options.go offers, and a nil Option. */
  datatype RouterOption =
    | NilOption
    | WithConfig(cfg: Config)
    | WithConfigMutator(mutator: Option<Config -> Config>)
    | WithLogger(logger: Option<Logger>)
    | WithSwagger(swagger: Option<Swagger>)
    | WithMiddlewares(middlewares: seq<Middleware>)
    | WithTrailingMiddlewares(middlewares: seq<Middleware>)
    | WithMiddlewareChain(middlewares: seq<Middleware>)
    | WithoutOpenAPIValidation
    | WithoutCORSMiddleware
    | WithoutTimeoutMiddleware
    | WithoutLoggingMiddleware

  /** A snapshot of the `options` record. */
  datatype Settings = Settings(
    config: Config,
    logger: Option<Logger>,
    swagger: Option<Swagger>,
    prepend: seq<Middleware>,
    append: seq<Middleware>,
    override: seq<Middleware>,
    enableOpenAPI: bool,
    enableCORS: bool,
    enableTimeout: bool,
    enableLogging: bool)

  const EmptyCORS := CORSConfig([], [], [], false)

  /** defaultOptions() */
  const DefaultSettings := Settings(
    Config(30 * Second, EmptyCORS, [], []), Some(DefaultLogger), None,
    [], [], [], true, true, true, true)

  /** What the closure of `opt` does to the settings. */
  function Applied(s: Settings, opt: RouterOption): Settings
    requires !opt.NilOption?
  {
    match opt
    case WithConfig(cfg) => s.(config := cfg)
    case WithConfigMutator(m) => if m.Some? then s.(config := m.value(s.config)) else s
    case WithLogger(l) => s.(logger := l)
    case WithSwagger(sw) => s.(swagger := sw)
    case WithMiddlewares(ms) => s.(prepend := s.prepend + ms)
    case WithTrailingMiddlewares(ms) => s.(append := s.append + ms)
    case WithMiddlewareChain(ms) => s.(override := ms)
    case WithoutOpenAPIValidation => s.(enableOpenAPI := false)
    case WithoutCORSMiddleware => s.(enableCORS := false)
    case WithoutTimeoutMiddleware => s.(enableTimeout := false)
    case WithoutLoggingMiddleware => s.(enableLogging := false)
  }

  /** The option loop of router.New: each option in turn, nil ones skipped. */
  function ApplyAll(s: Settings, opts: seq<RouterOption>): Settings
    decreases |opts|
  {
    if |opts| == 0 then s
    else if opts[0].NilOption? then ApplyAll(s, opts[1..])
    else ApplyAll(Applied(s, opts[0]), opts[1..])
  }

  /** One more option after a sequence of them. */
  lemma {:induction false} ApplyAllSnoc(s: Settings, opts: seq<RouterOption>, opt: RouterOption)
    ensures ApplyAll(s, opts + [opt]) ==
      if opt.NilOption? then ApplyAll(s, opts) else Applied(ApplyAll(s, opts), opt)
    decreases |opts|
  {
    if |opts| > 0 {
      assert (opts + [opt])[1..] == opts[1..] + [opt];
      var next := if opts[0].NilOption? then s else Applied(s, opts[0]);
      ApplyAllSnoc(next, opts[1..], opt);
    }
  }

  function ShouldApplyCORS(cfg: CORSConfig): bool {
    |cfg.origins| > 0
  }

  // ---------------------------------------------------------------------
  // The default stages

  /** The position of a built-in stage in the default chain. */
  function StageRank(m: Middleware): nat {
    match m
    case OpenAPIValidation(_) => 0
    case CorsStage(_) => 1
    case TimeoutStage(_) => 2
    case LoggingStage(_, _, _) => 3
    case _ => 4
  }

  /** The guard under which default stage `k` is included. */
  predicate Guard(s: Settings, k: nat) {
    if k == 0 then s.enableOpenAPI && s.swagger.Some?
    else if k == 1 then s.enableCORS && ShouldApplyCORS(s.config.cors)
    else if k == 2 then s.enableTimeout && s.config.timeout > 0
    else if k == 3 then s.enableLogging && s.logger.Some?
    else false
  }

  /** Default stage `k` built from the settings, when its guard holds. */
  function StageFor(s: Settings, k: nat): (r: Option<Middleware>)
    ensures r.Some? <==> Guard(s, k)
    ensures r.Some? ==> StageRank(r.value) == k
  {
    if !Guard(s, k) then None
    else if k == 0 then Some(OpenAPIValidation(s.swagger.value))
    else if k == 1 then Some(CorsStage(s.config.cors))
    else if k == 2 then Some(TimeoutStage(s.config.timeout))
    else Some(LoggingStage(s.logger.value, s.config.quietdownRoutes, s.config.hideHeaders))
  }

  function AsSeq(o: Option<Middleware>): seq<Middleware> {
    if o.Some? then [o.value] else []
  }

  /** defaultMiddlewares(), as a value. */
  function DefaultStagesOf(s: Settings): seq<Middleware> {
    AsSeq(StageFor(s, 0)) + AsSeq(StageFor(s, 1)) + AsSeq(StageFor(s, 2)) + AsSeq(StageFor(s, 3))
  }

  /** The default chain holds each stage whose guard holds and nothing else,
      in the fixed order OpenAPI, CORS, timeout, logging, each built from the
      current settings; so it has at most four entries. */
  lemma DefaultStagesCharacterised(s: Settings)
    ensures var ds := DefaultStagesOf(s);
      && |ds| <= 4
      && (forall i, j :: 0 <= i < j < |ds| ==> StageRank(ds[i]) < StageRank(ds[j]))
      && (forall i :: 0 <= i < |ds| ==> StageFor(s, StageRank(ds[i])) == Some(ds[i]))
      && (forall k :: k < 4 ==> (Guard(s, k) <==> exists i :: 0 <= i < |ds| && StageRank(ds[i]) == k))
  {
    var os := [StageFor(s, 0), StageFor(s, 1), StageFor(s, 2), StageFor(s, 3)];
    FourStages(os[0], os[1], os[2], os[3]);
    var ds := DefaultStagesOf(s);
    forall i | 0 <= i < |ds| ensures StageFor(s, StageRank(ds[i])) == Some(ds[i]) {
      StageForIs(s, os, StageRank(ds[i]));
    }
    forall k | k < 4 ensures Guard(s, k) <==> exists i :: 0 <= i < |ds| && StageRank(ds[i]) == k {
      StageForIs(s, os, k);
    }
  }

  lemma StageForIs(s: Settings, os: seq<Option<Middleware>>, k: nat)
    requires os == [StageFor(s, 0), StageFor(s, 1), StageFor(s, 2), StageFor(s, 3)] && k < 4
    ensures os[k] == StageFor(s, k)
  {
  }

  /** Four optional stages where entry k can only hold a stage of rank k:
      the present ones, in order, are in strictly increasing rank, each is
      the entry of its rank, and an entry is there exactly when a stage of
      its rank is. */
  lemma FourStages(o0: Option<Middleware>, o1: Option<Middleware>, o2: Option<Middleware>, o3: Option<Middleware>)
    requires o0.Some? ==> StageRank(o0.value) == 0
    requires o1.Some? ==> StageRank(o1.value) == 1
    requires o2.Some? ==> StageRank(o2.value) == 2
    requires o3.Some? ==> StageRank(o3.value) == 3
    ensures var ds := AsSeq(o0) + AsSeq(o1) + AsSeq(o2) + AsSeq(o3);
      var os := [o0, o1, o2, o3];
      && |ds| <= 4
      && (forall i :: 0 <= i < |ds| ==> StageRank(ds[i]) < 4 && os[StageRank(ds[i])] == Some(ds[i]))
      && (forall i, j :: 0 <= i < j < |ds| ==> StageRank(ds[i]) < StageRank(ds[j]))
      && (forall k :: 0 <= k < 4 ==> (os[k].Some? <==> exists i :: 0 <= i < |ds| && StageRank(ds[i]) == k))
  {
    var ds := AsSeq(o0) + AsSeq(o1) + AsSeq(o2) + AsSeq(o3);
    var os := [o0, o1, o2, o3];
    forall i | 0 <= i < |ds| ensures StageRank(ds[i]) < 4 && os[StageRank(ds[i])] == Some(ds[i]) {
      StageAtIndex(o0, o1, o2, o3, i);
    }
    forall i, j | 0 <= i < j < |ds| ensures StageRank(ds[i]) < StageRank(ds[j]) {
      StageAtIndex(o0, o1, o2, o3, i);
      StageAtIndex(o0, o1, o2, o3, j);
      var ri, rj := StageRank(ds[i]), StageRank(ds[j]);
      if rj < ri {
        StageIndexMonotone(o0, o1, o2, o3, rj, ri);
      }
    }
    forall k | 0 <= k < 4
      ensures os[k].Some? <==> exists i :: 0 <= i < |ds| && StageRank(ds[i]) == k
    {
      if os[k].Some? {
        StagePresentAt(o0, o1, o2, o3, k);
        StageAtIndex(o0, o1, o2, o3, StageIndex(o0, o1, o2, o3, k));
      }
    }
  }

  /** The index stage `k` has among the present ones: the number of present
      stages of lower rank. */
  function StageIndex(o0: Option<Middleware>, o1: Option<Middleware>, o2: Option<Middleware>, o3: Option<Middleware>, k: nat): nat {
    var a, b, c := |AsSeq(o0)|, |AsSeq(o1)|, |AsSeq(o2)|;
    if k == 0 then 0 else if k == 1 then a else if k == 2 then a + b else a + b + c
  }

  /** Entry `i` of the present stages is the entry of its rank, and sits at
      that rank's index. */
  lemma StageAtIndex(o0: Option<Middleware>, o1: Option<Middleware>, o2: Option<Middleware>, o3: Option<Middleware>, i: nat)
    requires o0.Some? ==> StageRank(o0.value) == 0
    requires o1.Some? ==> StageRank(o1.value) == 1
    requires o2.Some? ==> StageRank(o2.value) == 2
    requires o3.Some? ==> StageRank(o3.value) == 3
    requires i < |AsSeq(o0) + AsSeq(o1) + AsSeq(o2) + AsSeq(o3)|
    ensures var m := (AsSeq(o0) + AsSeq(o1) + AsSeq(o2) + AsSeq(o3))[i];
      StageRank(m) < 4 && [o0, o1, o2, o3][StageRank(m)] == Some(m) && StageIndex(o0, o1, o2, o3, StageRank(m)) == i
  {
    var a, b, c := AsSeq(o0), AsSeq(o1), AsSeq(o2);
    var ds := a + b + c + AsSeq(o3);
    if i < |a| {
      assert ds[i] == o0.value;
    } else if i < |a| + |b| {
      assert ds[i] == o1.value;
    } else if i < |a| + |b| + |c| {
      assert ds[i] == o2.value;
    } else {
      assert ds[i] == o3.value;
    }
  }

  /** A present stage is found at its rank's index. */
  lemma StagePresentAt(o0: Option<Middleware>, o1: Option<Middleware>, o2: Option<Middleware>, o3: Option<Middleware>, k: nat)
    requires k < 4 && [o0, o1, o2, o3][k].Some?
    ensures StageIndex(o0, o1, o2, o3, k) < |AsSeq(o0) + AsSeq(o1) + AsSeq(o2) + AsSeq(o3)|
    ensures (AsSeq(o0) + AsSeq(o1) + AsSeq(o2) + AsSeq(o3))[StageIndex(o0, o1, o2, o3, k)] == [o0, o1, o2, o3][k].value
  {
    var a, b, c := AsSeq(o0), AsSeq(o1), AsSeq(o2);
    var ds := a + b + c + AsSeq(o3);
    if k == 0 {
      assert ds[0] == o0.value;
    } else if k == 1 {
      assert ds[|a|] == o1.value;
    } else if k == 2 {
      assert ds[|a| + |b|] == o2.value;
    } else {
      assert ds[|a| + |b| + |c|] == o3.value;
    }
  }

  /** A present stage of lower rank comes at a lower index. */
  lemma StageIndexMonotone(o0: Option<Middleware>, o1: Option<Middleware>, o2: Option<Middleware>, o3: Option<Middleware>, k: nat, l: nat)
    requires k < l < 4 && [o0, o1, o2, o3][k].Some?
    ensures StageIndex(o0, o1, o2, o3, k) < StageIndex(o0, o1, o2, o3, l)
  {
  }

  /** middlewareChain(), as a value. */
  function ChainOf(s: Settings): seq<Middleware> {
    if |s.override| > 0 then s.override else s.prepend + DefaultStagesOf(s) + s.append
  }

  // ---------------------------------------------------------------------
  // What sequences of options do

  /** The middlewares that the WithMiddlewares options of `opts` carry, in
      call order. */
  function PrependedBy(opts: seq<RouterOption>): seq<Middleware> {
    if |opts| == 0 then []
    else (if opts[0].WithMiddlewares? then opts[0].middlewares else []) + PrependedBy(opts[1..])
  }

  /** The same for WithTrailingMiddlewares. */
  function AppendedBy(opts: seq<RouterOption>): seq<Middleware> {
    if |opts| == 0 then []
    else (if opts[0].WithTrailingMiddlewares? then opts[0].middlewares else []) + AppendedBy(opts[1..])
  }

  /** WithMiddlewares accumulates: every call adds its middlewares after
      those of earlier calls, and nothing else changes the prepend list. */
  lemma {:induction false} PrependAccumulates(s: Settings, opts: seq<RouterOption>)
    ensures ApplyAll(s, opts).prepend == s.prepend + PrependedBy(opts)
    decreases |opts|
  {
    if |opts| > 0 {
      var next := if opts[0].NilOption? then s else Applied(s, opts[0]);
      PrependAccumulates(next, opts[1..]);
      var own := if opts[0].WithMiddlewares? then opts[0].middlewares else [];
      assert next.prepend == s.prepend + own;
      assert s.prepend + own + PrependedBy(opts[1..]) == s.prepend + (own + PrependedBy(opts[1..]));
    }
  }

  /** WithTrailingMiddlewares accumulates in the same way. */
  lemma {:induction false} AppendAccumulates(s: Settings, opts: seq<RouterOption>)
    ensures ApplyAll(s, opts).append == s.append + AppendedBy(opts)
    decreases |opts|
  {
    if |opts| > 0 {
      var next := if opts[0].NilOption? then s else Applied(s, opts[0]);
      AppendAccumulates(next, opts[1..]);
      var own := if opts[0].WithTrailingMiddlewares? then opts[0].middlewares else [];
      assert next.append == s.append + own;
      assert s.append + own + AppendedBy(opts[1..]) == s.append + (own + AppendedBy(opts[1..]));
    }
  }

  /** The override list after `opts`: that of the last WithMiddlewareChain,
      or `current` when there is none. */
  function LastOverride(current: seq<Middleware>, opts: seq<RouterOption>): seq<Middleware> {
    if |opts| == 0 then current
    else if opts[|opts| - 1].WithMiddlewareChain? then opts[|opts| - 1].middlewares
    else LastOverride(current, opts[..|opts| - 1])
  }

  /** WithMiddlewareChain replaces: the last call wins. */
  lemma {:induction false} LastMiddlewareChainWins(s: Settings, opts: seq<RouterOption>)
    ensures ApplyAll(s, opts).override == LastOverride(s.override, opts)
    decreases |opts|
  {
    if |opts| > 0 {
      var init, last := opts[..|opts| - 1], opts[|opts| - 1];
      assert opts == init + [last];
      ApplyAllSnoc(s, init, last);
      LastMiddlewareChainWins(s, init);
    }
  }

  /** The four Without* options, by the stage they switch off. */
  predicate Disables(opt: RouterOption, k: nat) {
    (k == 0 && opt.WithoutOpenAPIValidation?) || (k == 1 && opt.WithoutCORSMiddleware?)
    || (k == 2 && opt.WithoutTimeoutMiddleware?) || (k == 3 && opt.WithoutLoggingMiddleware?)
  }

  function Flag(s: Settings, k: nat): bool {
    if k == 0 then s.enableOpenAPI
    else if k == 1 then s.enableCORS
    else if k == 2 then s.enableTimeout
    else s.enableLogging
  }

  /** A Without* option clears its own flag and changes no other field. */
  lemma WithoutClearsOnlyItsFlag(s: Settings, opt: RouterOption, k: nat)
    requires k < 4 && Disables(opt, k)
    ensures !Flag(Applied(s, opt), k)
    ensures forall j :: j < 4 && j != k ==> Flag(Applied(s, opt), j) == Flag(s, j)
    ensures Applied(s, opt).(enableOpenAPI := s.enableOpenAPI, enableCORS := s.enableCORS,
                             enableTimeout := s.enableTimeout, enableLogging := s.enableLogging) == s
  {
  }

  /** No option turns a stage flag back on: after a sequence of options a
      flag is off exactly when it was off before or some option in the
      sequence disabled it. */
  lemma {:induction false} FlagAfterOptions(s: Settings, opts: seq<RouterOption>, k: nat)
    requires k < 4
    ensures Flag(ApplyAll(s, opts), k) <==> Flag(s, k) && forall i :: 0 <= i < |opts| ==> !Disables(opts[i], k)
    decreases |opts|
  {
    if |opts| > 0 {
      var next := if opts[0].NilOption? then s else Applied(s, opts[0]);
      FlagAfterOne(s, opts[0], k);
      FlagAfterOptions(next, opts[1..], k);
      assert forall i :: 1 <= i < |opts| ==> opts[i] == opts[1..][i - 1];
    }
  }

  /** One option clears flag `k` when it disables stage `k`, and keeps it
      otherwise. */
  lemma FlagAfterOne(s: Settings, opt: RouterOption, k: nat)
    requires k < 4
    ensures Flag(if opt.NilOption? then s else Applied(s, opt), k) <==> Flag(s, k) && !Disables(opt, k)
  {
  }

  /** WithConfig replaces the whole configuration, so a zero (or negative)
      timeout in it switches the timeout stage off. */
  lemma ZeroTimeoutDropsTimeoutStage(s: Settings, cfg: Config)
    requires cfg.timeout <= 0
    ensures forall m :: m in DefaultStagesOf(Applied(s, WithConfig(cfg))) ==> !m.TimeoutStage?
  {
    var s' := Applied(s, WithConfig(cfg));
    DefaultStagesCharacterised(s');
    assert !Guard(s', 2);
  }

  /** A non-empty override is the chain, whatever else is configured; an
      empty one leaves prepend, defaults and append in that order. */
  lemma ChainResolution(s: Settings)
    ensures |s.override| > 0 ==> ChainOf(s) == s.override
    ensures |s.override| == 0 ==>
      (&& ChainOf(s)[..|s.prepend|] == s.prepend
       && ChainOf(s)[|ChainOf(s)| - |s.append|..] == s.append
       && |ChainOf(s)| <= |s.prepend| + |s.append| + 4)
  {
    DefaultStagesCharacterised(s);
  }

  // ---------------------------------------------------------------------
  // The record itself

  /** The `options` struct that router.New fills in. */
  class Options {
    var config: Config
    var logger: Option<Logger>
    var swagger: Option<Swagger>
    var prepend: seq<Middleware>
    var append: seq<Middleware>
    var override: seq<Middleware>
    var enableOpenAPI: bool
    var enableCORS: bool
    var enableTimeout: bool
    var enableLogging: bool

    function Value(): Settings
      reads this
    {
      Settings(config, logger, swagger, prepend, append, override,
               enableOpenAPI, enableCORS, enableTimeout, enableLogging)
    }

    /** defaultOptions(): a 30 s timeout, the default logger, every stage
        enabled, no swagger and no extra middlewares. */
    constructor ()
      ensures Value() == DefaultSettings
      ensures config.timeout == 30 * Second && logger == Some(DefaultLogger) && swagger.None?
      ensures enableOpenAPI && enableCORS && enableTimeout && enableLogging
      ensures prepend == [] && append == [] && override == []
    {
      config := Config(30 * Second, EmptyCORS, [], []);
      logger := Some(DefaultLogger);
      swagger := None;
      prepend, append, override := [], [], [];
      enableOpenAPI, enableCORS, enableTimeout, enableLogging := true, true, true, true;
    }

    /** Calls the closure of a non-nil option on this record. */
    method Apply(opt: RouterOption)
      requires !opt.NilOption?
      modifies this
      ensures Value() == Applied(old(Value()), opt)
    {
      match opt
      case WithConfig(cfg) => config := cfg;
      case WithConfigMutator(m) =>
        if m.Some? {
          config := m.value(config);
        }
      case WithLogger(l) => logger := l;
      case WithSwagger(sw) => swagger := sw;
      case WithMiddlewares(ms) => prepend := prepend + ms;
      case WithTrailingMiddlewares(ms) => append := append + ms;
      case WithMiddlewareChain(ms) => override := ms;
      case WithoutOpenAPIValidation => enableOpenAPI := false;
      case WithoutCORSMiddleware => enableCORS := false;
      case WithoutTimeoutMiddleware => enableTimeout := false;
      case WithoutLoggingMiddleware => enableLogging := false;
    }

    /** defaultMiddlewares(): the guarded stages appended one by one. */
    method DefaultMiddlewares() returns (chain: seq<Middleware>)
      ensures chain == DefaultStagesOf(Value())
      ensures |chain| <= 4
    {
      ghost var s := Value();
      chain := [];
      if enableOpenAPI && swagger.Some? {
        chain := chain + [OpenAPIValidation(swagger.value)];
      }
      ghost var a := chain;
      assert a == AsSeq(StageFor(s, 0));
      if enableCORS && ShouldApplyCORS(config.cors) {
        chain := chain + [CorsStage(config.cors)];
      }
      ghost var b := chain;
      assert b == a + AsSeq(StageFor(s, 1));
      if enableTimeout && config.timeout > 0 {
        chain := chain + [TimeoutStage(config.timeout)];
      }
      ghost var c := chain;
      assert c == b + AsSeq(StageFor(s, 2));
      if enableLogging && logger.Some? {
        chain := chain + [LoggingStage(logger.value, config.quietdownRoutes, config.hideHeaders)];
      }
      assert chain == c + AsSeq(StageFor(s, 3));
    }

    /** middlewareChain(): a copy of the override when there is one, else
        prepend, the default stages and append. */
    method MiddlewareChain() returns (chain: seq<Middleware>)
      ensures chain == ChainOf(Value())
      ensures |override| > 0 ==> chain == override
      ensures |override| == 0 ==> exists ds :: |ds| <= 4 && chain == prepend + ds + append
    {
      if |override| > 0 {
        chain := override;
        return;
      }
      chain := [];
      chain := chain + prepend;
      var defaults := DefaultMiddlewares();
      chain := chain + defaults;
      chain := chain + append;
    }
  }
}
