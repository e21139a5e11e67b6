/** probe/http_options.go: the HTTP probe configuration record, its options,
    the defaults refilled after the options, and the fail-fast mutator and
    validator loops. */
module ProbeHTTPOptions {
  import opened Wrappers
  import opened GoStd
  import opened GoHttp
  import opened ProbeHelpers
  import opened Probe

  /** HTTPStatusExpectation */
  type Expectation = int -> bool

  /** HTTPRequestMutator: edits the outgoing request, possibly failing. The
      request it hands back is the request after its edits. */
  type Mutator = OutRequest -> (OutRequest, Option<Error>)

  /** The parts of an *http.Response a validator sees. */
  datatype Response = Response(statusCode: int, header: map<string, seq<string>>)

  /** HTTPResponseValidator */
  type Validator = Response -> Option<Error>

  /** A snapshot of httpProbeConfig; `None` is a nil field or entry. */
  datatype HTTPProbeSettings = HTTPProbeSettings(
    client: Option<Doer>,
    expectation: Option<Expectation>,
    requestMutators: seq<Option<Mutator>>,
    responseValidators: seq<Option<Validator>>,
    drainResponse: bool)

  /** The HTTPProbeOption values, and a nil option. */
  datatype HTTPProbeOption =
    | NilHTTPProbeOption
    | WithHTTPClient(client: Option<Doer>)
    | WithHTTPStatusExpectation(expectation: Option<Expectation>)
    | WithHTTPAllowedStatuses(statuses: seq<int>)
    | WithHTTPRequestMutator(mutator: Option<Mutator>)
    | WithHTTPResponseValidator(validator: Option<Validator>)
    | WithHTTPDrainResponseBody(enabled: bool)

  /** The predicate WithHTTPAllowedStatuses installs. */
  predicate AllowedStatus(statuses: seq<int>, status: int) {
    if |statuses| == 0 then DefaultHTTPStatusExpectation(status) else status in statuses
  }

  /** With no statuses the option means "any 2xx"; with some, exactly those. */
  lemma AllowedStatusesMeaning(statuses: seq<int>, status: int)
    ensures |statuses| == 0 ==> (AllowedStatus(statuses, status) <==> 200 <= status < 300)
    ensures |statuses| > 0 ==> (AllowedStatus(statuses, status) <==> exists i :: 0 <= i < |statuses| && statuses[i] == status)
  {
  }

  /** The record before the options: the caller's client, the 2xx
      expectation, no mutators or validators, and draining on. */
  function Defaults(client: Option<Doer>): HTTPProbeSettings {
    HTTPProbeSettings(client, Some(DefaultHTTPStatusExpectation), [], [], true)
  }

  function Applied(s: HTTPProbeSettings, opt: HTTPProbeOption): HTTPProbeSettings
    requires !opt.NilHTTPProbeOption?
  {
    match opt
    case WithHTTPClient(c) => s.(client := c)
    case WithHTTPStatusExpectation(e) => s.(expectation := e)
    case WithHTTPAllowedStatuses(statuses) => s.(expectation := Some(status => AllowedStatus(statuses, status)))
    case WithHTTPRequestMutator(m) => s.(requestMutators := s.requestMutators + [m])
    case WithHTTPResponseValidator(v) => s.(responseValidators := s.responseValidators + [v])
    case WithHTTPDrainResponseBody(enabled) => s.(drainResponse := enabled)
  }

  /** The option loop: non-nil options in order. */
  function ApplyAll(s: HTTPProbeSettings, opts: seq<HTTPProbeOption>): HTTPProbeSettings
    decreases |opts|
  {
    if |opts| == 0 then s
    else if opts[0].NilHTTPProbeOption? then ApplyAll(s, opts[1..])
    else ApplyAll(Applied(s, opts[0]), opts[1..])
  }

  lemma {:induction false} ApplyAllSnoc(s: HTTPProbeSettings, opts: seq<HTTPProbeOption>, opt: HTTPProbeOption)
    ensures ApplyAll(s, opts + [opt]) ==
      if opt.NilHTTPProbeOption? then ApplyAll(s, opts) else Applied(ApplyAll(s, opts), opt)
    decreases |opts|
  {
    if |opts| > 0 {
      assert (opts + [opt])[1..] == opts[1..] + [opt];
      var next := if opts[0].NilHTTPProbeOption? then s else Applied(s, opts[0]);
      ApplyAllSnoc(next, opts[1..], opt);
    }
  }

  /** After the options: a nil client is the default client and a nil
      expectation the 2xx one. */
  function Refilled(s: HTTPProbeSettings): (r: HTTPProbeSettings)
    ensures r.client.Some? && r.expectation.Some?
    ensures s.client.Some? ==> r.client == s.client
    ensures s.client.None? ==> r.client == Some(DefaultClient)
    ensures s.expectation.Some? ==> r.expectation == s.expectation
    ensures s.expectation.None? ==> r.expectation == Some(DefaultHTTPStatusExpectation)
    ensures r.requestMutators == s.requestMutators && r.responseValidators == s.responseValidators
    ensures r.drainResponse == s.drainResponse
  {
    var c := if s.client.None? then Some(DefaultClient) else s.client;
    var e := if s.expectation.None? then Some(DefaultHTTPStatusExpectation) else s.expectation;
    s.(client := c, expectation := e)
  }

  /** buildHTTPProbeConfig */
  function Built(client: Option<Doer>, opts: seq<HTTPProbeOption>): HTTPProbeSettings {
    Refilled(ApplyAll(Defaults(client), opts))
  }

  /** The mutators the options register, in call order, nil ones included. */
  function MutatorsOf(opts: seq<HTTPProbeOption>): seq<Option<Mutator>> {
    if |opts| == 0 then []
    else (if opts[0].WithHTTPRequestMutator? then [opts[0].mutator] else []) + MutatorsOf(opts[1..])
  }

  function ValidatorsOf(opts: seq<HTTPProbeOption>): seq<Option<Validator>> {
    if |opts| == 0 then []
    else (if opts[0].WithHTTPResponseValidator? then [opts[0].validator] else []) + ValidatorsOf(opts[1..])
  }

  /** The list options accumulate in call order; nothing else touches the
      lists. */
  lemma {:induction false} ListOptionsAccumulate(s: HTTPProbeSettings, opts: seq<HTTPProbeOption>)
    ensures ApplyAll(s, opts).requestMutators == s.requestMutators + MutatorsOf(opts)
    ensures ApplyAll(s, opts).responseValidators == s.responseValidators + ValidatorsOf(opts)
    decreases |opts|
  {
    if |opts| > 0 {
      var next := if opts[0].NilHTTPProbeOption? then s else Applied(s, opts[0]);
      ListOptionsAccumulate(next, opts[1..]);
    }
  }

  /** The replacing options: the last client, expectation or drain option
      decides, and with none of a kind the default stays. */
  function LastDrain(opts: seq<HTTPProbeOption>, dflt: bool): bool {
    if |opts| == 0 then dflt
    else LastDrain(opts[1..], if opts[0].WithHTTPDrainResponseBody? then opts[0].enabled else dflt)
  }

  function LastClient(opts: seq<HTTPProbeOption>, dflt: Option<Doer>): Option<Doer> {
    if |opts| == 0 then dflt
    else LastClient(opts[1..], if opts[0].WithHTTPClient? then opts[0].client else dflt)
  }

  lemma {:induction false} ReplacingOptionsLastWins(s: HTTPProbeSettings, opts: seq<HTTPProbeOption>)
    ensures ApplyAll(s, opts).drainResponse == LastDrain(opts, s.drainResponse)
    ensures ApplyAll(s, opts).client == LastClient(opts, s.client)
    decreases |opts|
  {
    if |opts| > 0 {
      var next := if opts[0].NilHTTPProbeOption? then s else Applied(s, opts[0]);
      ReplacingOptionsLastWins(next, opts[1..]);
    }
  }

  /** What buildHTTPProbeConfig returns: a client and an expectation always,
      the default client when the last client option was nil or there was
      none with a nil argument, the registered lists in order, and draining
      unless the last drain option turned it off. */
  lemma BuiltConfig(client: Option<Doer>, opts: seq<HTTPProbeOption>)
    ensures var c := Built(client, opts);
      && c.client.Some? && c.expectation.Some?
      && c.client == (if LastClient(opts, client).Some? then LastClient(opts, client) else Some(DefaultClient))
      && c.requestMutators == MutatorsOf(opts)
      && c.responseValidators == ValidatorsOf(opts)
      && c.drainResponse == LastDrain(opts, true)
  {
    ListOptionsAccumulate(Defaults(client), opts);
    ReplacingOptionsLastWins(Defaults(client), opts);
  }

  /** The 2xx expectation is in place unless an option installs another. */
  lemma {:induction false} DefaultExpectationKept(client: Option<Doer>, opts: seq<HTTPProbeOption>)
    requires forall i :: 0 <= i < |opts| ==> !opts[i].WithHTTPStatusExpectation? && !opts[i].WithHTTPAllowedStatuses?
    ensures Built(client, opts).expectation == Some(DefaultHTTPStatusExpectation)
  {
    KeepsExpectation(Defaults(client), opts);
  }

  lemma {:induction false} KeepsExpectation(s: HTTPProbeSettings, opts: seq<HTTPProbeOption>)
    requires forall i :: 0 <= i < |opts| ==> !opts[i].WithHTTPStatusExpectation? && !opts[i].WithHTTPAllowedStatuses?
    ensures ApplyAll(s, opts).expectation == s.expectation
    decreases |opts|
  {
    if |opts| > 0 {
      var next := if opts[0].NilHTTPProbeOption? then s else Applied(s, opts[0]);
      assert forall i :: 0 <= i < |opts| - 1 ==> opts[1..][i] == opts[i + 1];
      KeepsExpectation(next, opts[1..]);
    }
  }

  // ---------------------------------------------------------------------
  // The two loops

  /** applyMutators as a function: each non-nil mutator edits the request in
      turn; the first error stops the run. */
  function MutateAll(ms: seq<Option<Mutator>>, req: OutRequest): (OutRequest, Option<Error>)
    decreases |ms|
  {
    if |ms| == 0 then (req, None)
    else if ms[0].None? then MutateAll(ms[1..], req)
    else
      var (next, err) := ms[0].value(req);
      if err.Some? then (next, err) else MutateAll(ms[1..], next)
  }

  /** Fail-fast: running a + b is running a and, only if it succeeded,
      running b on the request a left. */
  lemma {:induction false} MutateAllAppend(a: seq<Option<Mutator>>, b: seq<Option<Mutator>>, req: OutRequest)
    ensures MutateAll(a + b, req) ==
      if MutateAll(a, req).1.Some? then MutateAll(a, req) else MutateAll(b, MutateAll(a, req).0)
    decreases |a|
  {
    if |a| > 0 {
      assert (a + b)[0] == a[0];
      assert (a + b)[1..] == a[1..] + b;
      if a[0].Some? {
        var (next, err) := a[0].value(req);
        if err.None? {
          MutateAllAppend(a[1..], b, next);
        }
      } else {
        MutateAllAppend(a[1..], b, req);
      }
    } else {
      assert a + b == b;
    }
  }

  /** A nil mutator is skipped: it leaves the request and the outcome as
      they are. */
  lemma NilMutatorSkipped(a: seq<Option<Mutator>>, b: seq<Option<Mutator>>, req: OutRequest)
    ensures MutateAll(a + [None] + b, req) == MutateAll(a + b, req)
  {
    MutateAllAppend(a, [None] + b, req);
    MutateAllAppend(a, b, req);
    assert a + [None] + b == a + ([None] + b);
  }

  /** The first non-nil validator verdict that is an error. */
  function FirstFailure(vs: seq<Option<Validator>>, resp: Response): Option<Error>
    decreases |vs|
  {
    if |vs| == 0 then None
    else if vs[0].Some? && vs[0].value(resp).Some? then vs[0].value(resp)
    else FirstFailure(vs[1..], resp)
  }

  /** FirstFailure finds the earliest failing validator and nothing else. */
  lemma {:induction false} FirstFailureCharacterised(vs: seq<Option<Validator>>, resp: Response)
    ensures FirstFailure(vs, resp).None? <==>
      forall i :: 0 <= i < |vs| && vs[i].Some? ==> vs[i].value(resp).None?
    ensures FirstFailure(vs, resp).Some? ==>
      exists j :: 0 <= j < |vs| && vs[j].Some? && vs[j].value(resp) == FirstFailure(vs, resp)
        && forall i :: 0 <= i < j && vs[i].Some? ==> vs[i].value(resp).None?
    decreases |vs|
  {
    if |vs| > 0 {
      FirstFailureCharacterised(vs[1..], resp);
      assert forall i :: 1 <= i < |vs| ==> vs[i] == vs[1..][i - 1];
      if !(vs[0].Some? && vs[0].value(resp).Some?) && FirstFailure(vs, resp).Some? {
        var j :| 0 <= j < |vs[1..]| && vs[1..][j].Some? && vs[1..][j].value(resp) == FirstFailure(vs, resp)
          && forall i :: 0 <= i < j && vs[1..][i].Some? ==> vs[1..][i].value(resp).None?;
        assert vs[j + 1] == vs[1..][j];
      }
    }
  }

  /** The status error of validateResponse. */
  function StatusError(status: int): Error {
    New("unexpected status " + IntToString(status) + " " + StatusText(status))
  }

  /** validateResponse as a function: the status check, then the validators. */
  function Validation(s: HTTPProbeSettings, resp: Response): (err: Option<Error>)
    ensures s.expectation.Some? && !s.expectation.value(resp.statusCode) ==> err == Some(StatusError(resp.statusCode))
    ensures (s.expectation.None? || s.expectation.value(resp.statusCode)) ==> err == FirstFailure(s.responseValidators, resp)
  {
    if s.expectation.Some? && !s.expectation.value(resp.statusCode) then Some(StatusError(resp.statusCode))
    else FirstFailure(s.responseValidators, resp)
  }

  /** With the default expectation a non-2xx response fails before any
      validator runs, and a 2xx one passes exactly when every validator
      does. */
  lemma DefaultValidation(client: Option<Doer>, resp: Response)
    ensures var c := Built(client, []);
      && (!DefaultHTTPStatusExpectation(resp.statusCode) ==> Validation(c, resp) == Some(StatusError(resp.statusCode)))
      && (DefaultHTTPStatusExpectation(resp.statusCode) ==> Validation(c, resp).None?)
  {
  }

  /** The httpProbeConfig record. */
  class HTTPProbeConfig {
    var client: Option<Doer>
    var expectation: Option<Expectation>
    var requestMutators: seq<Option<Mutator>>
    var responseValidators: seq<Option<Validator>>
    var drainResponse: bool

    function Value(): HTTPProbeSettings
      reads this
    {
      HTTPProbeSettings(client, expectation, requestMutators, responseValidators, drainResponse)
    }

    /** buildHTTPProbeConfig(client, opts...) */
    constructor (client: Option<Doer>, opts: seq<HTTPProbeOption>)
      ensures Value() == Built(client, opts)
    {
      this.client := client;
      expectation := Some(DefaultHTTPStatusExpectation);
      requestMutators := [];
      responseValidators := [];
      drainResponse := true;
      new;
      var i := 0;
      while i < |opts|
        invariant 0 <= i <= |opts|
        invariant Value() == ApplyAll(Defaults(client), opts[..i])
      {
        ApplyAllSnoc(Defaults(client), opts[..i], opts[i]);
        assert opts[..i + 1] == opts[..i] + [opts[i]];
        if !opts[i].NilHTTPProbeOption? {
          Apply(opts[i]);
        }
        i := i + 1;
      }
      assert opts[..|opts|] == opts;
      if this.client.None? {
        this.client := Some(DefaultClient);
      }
      if expectation.None? {
        expectation := Some(DefaultHTTPStatusExpectation);
      }
    }

    method Apply(opt: HTTPProbeOption)
      requires !opt.NilHTTPProbeOption?
      modifies this
      ensures Value() == Applied(old(Value()), opt)
    {
      match opt
      case WithHTTPClient(c) => client := c;
      case WithHTTPStatusExpectation(e) => expectation := e;
      case WithHTTPAllowedStatuses(statuses) => expectation := Some(status => AllowedStatus(statuses, status));
      case WithHTTPRequestMutator(m) => requestMutators := requestMutators + [m];
      case WithHTTPResponseValidator(v) => responseValidators := responseValidators + [v];
      case WithHTTPDrainResponseBody(enabled) => drainResponse := enabled;
    }

    /** applyMutators: the request as the mutators left it, and the first
        error. */
    method ApplyMutators(req: OutRequest) returns (edited: OutRequest, err: Option<Error>)
      ensures (edited, err) == MutateAll(requestMutators, req)
    {
      edited := req;
      var i := 0;
      while i < |requestMutators|
        invariant 0 <= i <= |requestMutators|
        invariant MutateAll(requestMutators, req) == MutateAll(requestMutators[i..], edited)
      {
        assert requestMutators[i..][1..] == requestMutators[i + 1..];
        var mutate := requestMutators[i];
        if mutate.Some? {
          var (next, e) := mutate.value(edited);
          if e.Some? {
            return next, e;
          }
          edited := next;
        }
        i := i + 1;
      }
      err := None;
    }

    /** validateResponse: the status check, then each non-nil validator in
        turn until one fails. */
    method ValidateResponse(resp: Response) returns (err: Option<Error>)
      ensures err == Validation(Value(), resp)
    {
      if expectation.Some? && !expectation.value(resp.statusCode) {
        return Some(StatusError(resp.statusCode));
      }
      var i := 0;
      while i < |responseValidators|
        invariant 0 <= i <= |responseValidators|
        invariant FirstFailure(responseValidators, resp) == FirstFailure(responseValidators[i..], resp)
      {
        assert responseValidators[i..][1..] == responseValidators[i + 1..];
        var validator := responseValidators[i];
        if validator.Some? {
          var e := validator.value(resp);
          if e.Some? {
            return e;
          }
        }
        i := i + 1;
      }
      err := None;
    }
  }
}
