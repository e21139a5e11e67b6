/** router/std.go: building the router's handler, wrapping it in the
    middleware chain, and the per-request logic of the CORS and logging
    stages. A handler is a value: the application handler, or a stage
    wrapped around a handler. Serving a request through a handler is
    written as the trace of events it produces. */
module RouterStd {
  import opened Wrappers
  import opened GoStd
  import opened GoHttp
  import opened RouterOptions

  /** An http.Handler: the application's handler, or a middleware wrapped
      around the next handler. */
  datatype Handler = App(id: nat) | Wrapped(stage: Middleware, next: Handler)

  /** The handler that applyMiddlewares builds: `ms[0]` outermost, nil
      entries left out. */
  function Compose(ms: seq<Middleware>, h: Handler): Handler {
    if |ms| == 0 then h
    else if ms[0].NilMiddleware? then Compose(ms[1..], h)
    else Wrapped(ms[0], Compose(ms[1..], h))
  }

  /** applyMiddlewares: wraps from the last middleware to the first,
      skipping nil ones. */
  method ApplyMiddlewares(handler: Handler, middlewares: seq<Middleware>) returns (r: Handler)
    ensures r == Compose(middlewares, handler)
  {
    if |middlewares| == 0 {
      return handler;
    }
    r := handler;
    var i := |middlewares|;
    while i > 0
      invariant 0 <= i <= |middlewares|
      invariant r == Compose(middlewares[i..], handler)
    {
      i := i - 1;
      assert middlewares[i..][1..] == middlewares[i + 1..];
      var middleware := middlewares[i];
      if middleware.NilMiddleware? {
        continue;
      }
      r := Wrapped(middleware, r);
    }
  }

  // ---------------------------------------------------------------------
  // Onion order

  /** What serving a request through a stage or the application records. */
  datatype Event = Pre(stage: Middleware) | Serve(app: nat) | Post(stage: Middleware)

  /** The events of one request: a stage acts before and after the handler
      it wraps. */
  function Trace(h: Handler): seq<Event> {
    match h
    case App(id) => [Serve(id)]
    case Wrapped(m, next) => [Pre(m)] + Trace(next) + [Post(m)]
  }

  /** The non-nil entries of a middleware list, in order. */
  function NonNil(ms: seq<Middleware>): (r: seq<Middleware>)
    ensures |r| <= |ms|
    ensures forall i :: 0 <= i < |r| ==> !r[i].NilMiddleware? && r[i] in ms
  {
    if |ms| == 0 then []
    else if ms[0].NilMiddleware? then NonNil(ms[1..])
    else [ms[0]] + NonNil(ms[1..])
  }

  function Pres(ms: seq<Middleware>): seq<Event> {
    if |ms| == 0 then [] else [Pre(ms[0])] + Pres(ms[1..])
  }

  /** Post events in reverse list order. */
  function PostsReversed(ms: seq<Middleware>): seq<Event> {
    if |ms| == 0 then [] else PostsReversed(ms[1..]) + [Post(ms[0])]
  }

  /** Nil entries are skipped without affecting the others. */
  lemma {:induction false} ComposeSkipsNil(ms: seq<Middleware>, h: Handler)
    ensures Compose(ms, h) == Compose(NonNil(ms), h)
  {
    if |ms| > 0 {
      ComposeSkipsNil(ms[1..], h);
      if !ms[0].NilMiddleware? {
        assert ([ms[0]] + NonNil(ms[1..]))[1..] == NonNil(ms[1..]);
      }
    }
  }

  /** For [m1, ..., mn] a request runs m1-pre ... mn-pre, the handler, then
      mn-post ... m1-post. */
  lemma {:induction false} OnionOrder(ms: seq<Middleware>, app: nat)
    requires forall i :: 0 <= i < |ms| ==> !ms[i].NilMiddleware?
    ensures Trace(Compose(ms, App(app))) == Pres(ms) + [Serve(app)] + PostsReversed(ms)
  {
    if |ms| > 0 {
      OnionOrder(ms[1..], app);
      var inner := Pres(ms[1..]) + [Serve(app)] + PostsReversed(ms[1..]);
      calc {
        Trace(Compose(ms, App(app)));
        [Pre(ms[0])] + inner + [Post(ms[0])];
        Pres(ms) + [Serve(app)] + PostsReversed(ms);
      }
    }
  }

  /** An empty chain leaves the handler as it is, and the handler serves the
      request exactly once under any chain. */
  lemma {:induction false} HandlerServedOnce(ms: seq<Middleware>, app: nat)
    ensures Compose([], App(app)) == App(app)
    ensures multiset(Trace(Compose(ms, App(app))))[Serve(app)] == 1
  {
    if |ms| > 0 {
      HandlerServedOnce(ms[1..], app);
    }
  }

  // ---------------------------------------------------------------------
  // router.New

  const NilHandlerPanic := "router: handler cannot be nil"

  /** router.New: a nil handler panics (here: a Failure carrying the panic
      message); otherwise the non-nil options are applied in order to the
      defaults and the handler is wrapped in the resolved chain. */
  method New(apiHandle: Option<Handler>, opts: seq<RouterOption>) returns (r: Result<Handler, string>)
    ensures apiHandle.None? ==> r == Failure(NilHandlerPanic)
    ensures apiHandle.Some? ==> r == Success(Compose(ChainOf(ApplyAll(DefaultSettings, opts)), apiHandle.value))
  {
    if apiHandle.None? {
      return Failure(NilHandlerPanic);
    }
    var settings := new Options();
    var i := 0;
    while i < |opts|
      invariant 0 <= i <= |opts|
      invariant settings.Value() == ApplyAll(DefaultSettings, opts[..i])
    {
      ApplyAllSnoc(DefaultSettings, opts[..i], opts[i]);
      assert opts[..i + 1] == opts[..i] + [opts[i]];
      if !opts[i].NilOption? {
        settings.Apply(opts[i]);
      }
      i := i + 1;
    }
    assert opts[..|opts|] == opts;
    var chain := settings.MiddlewareChain();
    var finalHandler := ApplyMiddlewares(apiHandle.value, chain);
    r := Success(finalHandler);
  }

  // ---------------------------------------------------------------------
  // Membership tests

  /** allowedOrigin: some allowed entry is "*" or equals the origin exactly. */
  function AllowedOrigin(origin: string, allowed: seq<string>): (r: bool)
    ensures r <==> exists i :: 0 <= i < |allowed| && (allowed[i] == "*" || allowed[i] == origin)
  {
    if |allowed| == 0 then false
    else if allowed[0] == "*" || allowed[0] == origin then true
    else
      var rest := AllowedOrigin(origin, allowed[1..]);
      assert forall i :: 1 <= i < |allowed| ==> allowed[i] == allowed[1..][i - 1];
      rest
  }

  /** shouldQuietRoute: the path is one of the quiet routes, compared exactly. */
  function ShouldQuietRoute(path: string, quietdownRoutes: seq<string>): (r: bool)
    ensures r <==> exists i :: 0 <= i < |quietdownRoutes| && quietdownRoutes[i] == path
  {
    if |quietdownRoutes| == 0 then false
    else if path == quietdownRoutes[0] then true
    else
      var rest := ShouldQuietRoute(path, quietdownRoutes[1..]);
      assert forall i :: 1 <= i < |quietdownRoutes| ==> quietdownRoutes[i] == quietdownRoutes[1..][i - 1];
      rest
  }

  // ---------------------------------------------------------------------
  // The CORS stage

  /** What the CORS stage does with one request: the response headers it
      sets (in order), the status it writes, and whether the next handler
      runs. */
  datatype CorsOutcome = CorsOutcome(
    headers: seq<(string, string)>,
    status: Option<int>,
    callsNext: bool)

  /** The decision of corsMiddleware for a request with the given method and
      Origin header. With no configured origins the stage is the next
      handler itself. */
  function CorsDecision(cfg: CORSConfig, httpMethod: string, origin: string): CorsOutcome {
    if |cfg.origins| == 0 || origin == "" then CorsOutcome([], None, true)
    else
      var reflected :=
        if AllowedOrigin(origin, cfg.origins)
        then [("Access-Control-Allow-Origin", origin), ("Vary", "Origin")]
        else [];
      if httpMethod == MethodOptions then
        var allow := [("Access-Control-Allow-Methods", Join(cfg.methods, ",")),
                      ("Access-Control-Allow-Headers", Join(cfg.headers, ","))];
        var creds := if cfg.allowCredentials then [("Access-Control-Allow-Credentials", "true")] else [];
        CorsOutcome(reflected + allow + creds, Some(StatusOK), false)
      else CorsOutcome(reflected, None, true)
  }

  /** A request without an Origin header, or any request when no origins
      are configured, passes through untouched. */
  lemma CorsPassThrough(cfg: CORSConfig, httpMethod: string, origin: string)
    requires |cfg.origins| == 0 || origin == ""
    ensures CorsDecision(cfg, httpMethod, origin) == CorsOutcome([], None, true)
  {
  }

  /** For a request with an Origin: the origin is reflected with Vary
      exactly when it is allowed; a preflight (OPTIONS) gets the joined
      allow lists, the credentials header only when enabled, and a 200
      without reaching the next handler, allowed origin or not; any other
      method reaches the next handler with no status written. */
  lemma CorsWithOrigin(cfg: CORSConfig, httpMethod: string, origin: string)
    requires |cfg.origins| > 0 && origin != ""
    ensures var out := CorsDecision(cfg, httpMethod, origin);
      && (AllowedOrigin(origin, cfg.origins) <==> ("Access-Control-Allow-Origin", origin) in out.headers)
      && (AllowedOrigin(origin, cfg.origins) <==> ("Vary", "Origin") in out.headers)
      && (httpMethod == MethodOptions <==> !out.callsNext)
      && (httpMethod == MethodOptions <==> out.status == Some(StatusOK))
      && (httpMethod != MethodOptions ==> out.status.None?)
      && (httpMethod == MethodOptions ==>
            && ("Access-Control-Allow-Methods", Join(cfg.methods, ",")) in out.headers
            && ("Access-Control-Allow-Headers", Join(cfg.headers, ",")) in out.headers
            && (("Access-Control-Allow-Credentials", "true") in out.headers <==> cfg.allowCredentials))
      && (!AllowedOrigin(origin, cfg.origins) ==>
            forall p :: p in out.headers ==> p.0 != "Access-Control-Allow-Origin" && p.0 != "Vary")
      && (httpMethod != MethodOptions ==>
            out.headers == (if AllowedOrigin(origin, cfg.origins) then OriginHeaders(origin) else []))
  {
    var out := CorsDecision(cfg, httpMethod, origin);
    if !AllowedOrigin(origin, cfg.origins) {
      assert forall p :: p in out.headers ==> p.0 != "Access-Control-Allow-Origin" && p.0 != "Vary";
    }
    if httpMethod == MethodOptions && !cfg.allowCredentials {
      assert forall p :: p in out.headers ==> p.0 != "Access-Control-Allow-Credentials";
    }
  }

  /** The response after setting each header of `headers` in order. */
  function SetAll(st: WriterState, headers: seq<(string, string)>): WriterState
    decreases |headers|
  {
    if |headers| == 0 then st else SetAll(SetHeaderState(st, headers[0].0, headers[0].1), headers[1..])
  }

  /** The response the CORS stage leaves before (possibly) calling next. */
  function CorsState(st: WriterState, out: CorsOutcome): WriterState {
    var withHeaders := SetAll(st, out.headers);
    if out.status.Some? then WriteHeaderState(withHeaders, out.status.value) else withHeaders
  }

  /** The CORS handler of corsMiddleware on one request: sets the response
      headers and status of `CorsDecision` and says whether next runs. */
  method ServeCors(cfg: CORSConfig, r: Request, w: ResponseWriter) returns (callsNext: bool)
    modifies w
    ensures var out := CorsDecision(cfg, r.httpMethod, r.header.Get("Origin"));
      w.State() == CorsState(old(w.State()), out) && callsNext == out.callsNext
  {
    if |cfg.origins| == 0 {
      return true;
    }
    var origin := r.header.Get("Origin");
    if origin == "" {
      return true;
    }
    ghost var st0 := w.State();
    var allowed := AllowedOrigin(origin, cfg.origins);
    if allowed {
      ReflectOrigin(w, origin);
    }
    ghost var reflected := if allowed then OriginHeaders(origin) else [];
    assert w.State() == SetAll(st0, reflected);
    if r.httpMethod == MethodOptions {
      AllowPreflight(w, cfg);
      SetAllAppend(st0, reflected, PreflightHeaders(cfg));
      assert reflected + PreflightHeaders(cfg) == CorsDecision(cfg, r.httpMethod, origin).headers;
      w.WriteHeader(StatusOK);
      return false;
    }
    return true;
  }

  function OriginHeaders(origin: string): seq<(string, string)> {
    [("Access-Control-Allow-Origin", origin), ("Vary", "Origin")]
  }

  function PreflightHeaders(cfg: CORSConfig): seq<(string, string)> {
    [("Access-Control-Allow-Methods", Join(cfg.methods, ",")),
     ("Access-Control-Allow-Headers", Join(cfg.headers, ","))]
    + (if cfg.allowCredentials then [("Access-Control-Allow-Credentials", "true")] else [])
  }

  /** The allowed origin is reflected, with Vary: Origin. */
  method ReflectOrigin(w: ResponseWriter, origin: string)
    modifies w
    ensures w.State() == SetAll(old(w.State()), OriginHeaders(origin))
  {
    ghost var st0 := w.State();
    w.SetHeader("Access-Control-Allow-Origin", origin);
    w.SetHeader("Vary", "Origin");
    SetAllTwo(st0, ("Access-Control-Allow-Origin", origin), ("Vary", "Origin"));
  }

  /** The preflight allow lists, and the credentials header when enabled. */
  method AllowPreflight(w: ResponseWriter, cfg: CORSConfig)
    modifies w
    ensures w.State() == SetAll(old(w.State()), PreflightHeaders(cfg))
  {
    ghost var st0 := w.State();
    var allowMethods := ("Access-Control-Allow-Methods", Join(cfg.methods, ","));
    var allowHeaders := ("Access-Control-Allow-Headers", Join(cfg.headers, ","));
    w.SetHeader(allowMethods.0, allowMethods.1);
    w.SetHeader(allowHeaders.0, allowHeaders.1);
    SetAllTwo(st0, allowMethods, allowHeaders);
    if cfg.allowCredentials {
      ghost var st2 := w.State();
      var creds := ("Access-Control-Allow-Credentials", "true");
      w.SetHeader(creds.0, creds.1);
      SetAllAppend(st0, [allowMethods, allowHeaders], [creds]);
      SetAllOne(st2, creds);
    } else {
      assert PreflightHeaders(cfg) == [allowMethods, allowHeaders];
    }
  }

  lemma SetAllOne(st: WriterState, a: (string, string))
    ensures SetAll(st, [a]) == SetHeaderState(st, a.0, a.1)
  {
    assert [a][1..] == [];
  }

  lemma SetAllTwo(st: WriterState, a: (string, string), b: (string, string))
    ensures SetAll(st, [a, b]) == SetHeaderState(SetHeaderState(st, a.0, a.1), b.0, b.1)
  {
    assert [a, b][1..] == [b];
    SetAllOne(SetHeaderState(st, a.0, a.1), b);
  }

  lemma {:induction false} SetAllAppend(st: WriterState, a: seq<(string, string)>, b: seq<(string, string)>)
    ensures SetAll(st, a + b) == SetAll(SetAll(st, a), b)
    decreases |a|
  {
    if |a| > 0 {
      assert (a + b)[1..] == a[1..] + b;
      SetAllAppend(SetHeaderState(st, a[0].0, a[0].1), a[1..], b);
    } else {
      assert a + b == b;
    }
  }

  // ---------------------------------------------------------------------
  // The logging stage: header copy and redaction

  /** cloneHeaders: a new header map with the same keys and equal value
      lists. */
  method CloneHeaders(src: Header) returns (dst: Header)
    ensures fresh(dst)
    ensures dst.entries == src.entries
  {
    dst := new Header(map[]);
    var keys := src.entries.Keys;
    while keys != {}
      invariant keys <= src.entries.Keys
      invariant dst.entries.Keys == src.entries.Keys - keys
      invariant forall k :: k in dst.entries ==> dst.entries[k] == src.entries[k]
      decreases keys
    {
      var k :| k in keys;
      var copied := src.entries[k];
      dst.entries := dst.entries[k := copied];
      keys := keys - {k};
    }
    assert dst.entries.Keys == src.entries.Keys;
  }

  /** The total byte length of a header's values. */
  function SumLen(values: seq<string>): nat {
    if |values| == 0 then 0 else SumLen(values[..|values| - 1]) + Len(values[|values| - 1])
  }

  /** fmt.Sprintf("[REDACTED - %d bytes]", n) */
  function Placeholder(n: nat): string {
    "[REDACTED - " + NatToString(n) + " bytes]"
  }

  /** One step of redactHeaders: a present header becomes one placeholder
      carrying its byte total; an absent one is not added. */
  function RedactOne(m: map<string, seq<string>>, name: string): map<string, seq<string>> {
    var canonical := CanonicalHeaderKey(name);
    if canonical !in m then m else m[canonical := [Placeholder(SumLen(m[canonical]))]]
  }

  /** redactHeaders, as a value: the listed names handled in order. */
  function Redacted(m: map<string, seq<string>>, names: seq<string>): map<string, seq<string>>
    decreases |names|
  {
    if |names| == 0 then m else RedactOne(Redacted(m, names[..|names| - 1]), names[|names| - 1])
  }

  /** redactHeaders: overwrites the listed headers of the copy in place. */
  method RedactHeaders(headers: Header, hideHeaders: seq<string>)
    modifies headers
    ensures headers.entries == Redacted(old(headers.entries), hideHeaders)
  {
    var i := 0;
    while i < |hideHeaders|
      invariant 0 <= i <= |hideHeaders|
      invariant headers.entries == Redacted(old(headers.entries), hideHeaders[..i])
    {
      assert hideHeaders[..i + 1][..i] == hideHeaders[..i];
      var canonical := CanonicalHeaderKey(hideHeaders[i]);
      if canonical !in headers.entries {
        i := i + 1;
        continue;
      }
      var values := headers.entries[canonical];
      var redactedLen := 0;
      var j := 0;
      while j < |values|
        invariant 0 <= j <= |values|
        invariant redactedLen == SumLen(values[..j])
      {
        assert values[..j + 1][..j] == values[..j];
        redactedLen := redactedLen + Len(values[j]);
        j := j + 1;
      }
      assert values[..|values|] == values;
      headers.entries := headers.entries[canonical := [Placeholder(redactedLen)]];
      i := i + 1;
    }
    assert hideHeaders[..|hideHeaders|] == hideHeaders;
  }

  /** The canonical forms of the listed names. */
  predicate Listed(k: string, names: seq<string>) {
    exists i :: 0 <= i < |names| && CanonicalHeaderKey(names[i]) == k
  }

  /** Redaction never adds or removes a header, and leaves every header
      whose name is not listed (after canonicalisation) as it was. */
  lemma {:induction false} RedactKeepsUnlisted(m: map<string, seq<string>>, names: seq<string>)
    ensures Redacted(m, names).Keys == m.Keys
    ensures forall k :: k in m && !Listed(k, names) ==> Redacted(m, names)[k] == m[k]
    decreases |names|
  {
    if |names| > 0 {
      var init := names[..|names| - 1];
      RedactKeepsUnlisted(m, init);
    }
  }

  /** Every present listed header ends up as a single placeholder: no
      original value survives. */
  lemma {:induction false} RedactHidesListed(m: map<string, seq<string>>, names: seq<string>, k: string)
    requires k in m && Listed(k, names)
    ensures k in Redacted(m, names)
    ensures exists n :: Redacted(m, names)[k] == [Placeholder(n)]
    decreases |names|
  {
    RedactKeepsUnlisted(m, names);
    var init, last := names[..|names| - 1], names[|names| - 1];
    RedactKeepsUnlisted(m, init);
    if CanonicalHeaderKey(last) != k {
      var i :| 0 <= i < |names| && CanonicalHeaderKey(names[i]) == k;
      assert i < |init| && init[i] == names[i];
      RedactHidesListed(m, init, k);
    }
  }

  /** A header listed once gets the byte total of its original values. */
  lemma RedactCountsOriginalBytes(m: map<string, seq<string>>, names: seq<string>, j: nat)
    requires j < |names| && CanonicalHeaderKey(names[j]) in m
    requires forall i :: 0 <= i < |names| && i != j ==> CanonicalHeaderKey(names[i]) != CanonicalHeaderKey(names[j])
    ensures CanonicalHeaderKey(names[j]) in Redacted(m, names)
    ensures Redacted(m, names)[CanonicalHeaderKey(names[j])] == [Placeholder(SumLen(m[CanonicalHeaderKey(names[j])]))]
  {
    var k := CanonicalHeaderKey(names[j]);
    var before := names[..j];
    assert names[..j + 1] == before + [names[j]];
    assert names[..j + 1][..j] == before;
    RedactKeepsUnlisted(m, before);
    assert !Listed(k, before);
    RedactAfter(m, names, j + 1, k);
  }

  /** Names after position `n` that canonicalise elsewhere leave `k` alone. */
  lemma {:induction false} RedactAfter(m: map<string, seq<string>>, names: seq<string>, n: nat, k: string)
    requires n <= |names|
    requires forall i :: n <= i < |names| ==> CanonicalHeaderKey(names[i]) != k
    requires k in Redacted(m, names[..n])
    ensures k in Redacted(m, names) && Redacted(m, names)[k] == Redacted(m, names[..n])[k]
    decreases |names| - n
  {
    if n == |names| {
      assert names[..n] == names;
    } else {
      assert names[..n + 1][..n] == names[..n];
      RedactAfter(m, names, n + 1, k);
    }
  }

  /** Two listed names that canonicalise to the same present header redact
      it twice: the second pass counts the bytes of the first placeholder,
      not of the original values. */
  lemma RedactTwiceCountsPlaceholder(m: map<string, seq<string>>, a: string, b: string)
    requires CanonicalHeaderKey(a) == CanonicalHeaderKey(b) && CanonicalHeaderKey(a) in m
    ensures var k := CanonicalHeaderKey(a);
      Redacted(m, [a, b]) == m[k := [Placeholder(Len(Placeholder(SumLen(m[k]))))]]
  {
    var k := CanonicalHeaderKey(a);
    assert [a, b][..1] == [a];
    assert [a][..0] == [];
    var p := Placeholder(SumLen(m[k]));
    assert Redacted(m, [a]) == RedactOne(m, a) == m[k := [p]];
    assert [p][..0] == [];
    assert SumLen([p]) == Len(p);
    assert Redacted(m, [a, b]) == RedactOne(m[k := [p]], b);
  }

  /** The attributes the logging stage records for a request. */
  datatype LogRecord = LogRecord(
    path: string,
    httpMethod: string,
    header: map<string, seq<string>>,
    contentLength: Option<int>)

  /** The request-side work of loggingMiddleware: nothing for a quiet
      route; otherwise the path, the method, a redacted copy of the headers
      and the content length when it is positive. The request's own headers
      are left untouched. */
  method LogRequest(quietdownRoutes: seq<string>, hideHeaders: seq<string>, r: Request)
    returns (rec: Option<LogRecord>)
    ensures rec.None? <==> ShouldQuietRoute(r.path, quietdownRoutes)
    ensures rec.Some? ==> rec.value == LogRecord(
      r.path, r.httpMethod, Redacted(r.header.entries, hideHeaders),
      if r.contentLength > 0 then Some(r.contentLength) else None)
  {
    if ShouldQuietRoute(r.path, quietdownRoutes) {
      return None;
    }
    var headers := CloneHeaders(r.header);
    RedactHeaders(headers, hideHeaders);
    var contentLength := if r.contentLength > 0 then Some(r.contentLength) else None;
    rec := Some(LogRecord(r.path, r.httpMethod, headers.entries, contentLength));
  }
}
