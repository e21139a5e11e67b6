/** info/probes.go: the fail-fast probe runner, the nil filter applied to
    probe lists, and the probe payload. A probe outcome is the error value
    its function returns; the deadline of the probe context is not
    modelled, so a probe that overruns is one that returns
    context.DeadlineExceeded. */
module InfoProbes {
  import opened Wrappers
  import opened GoStd
  import opened GoHttp
  import opened Json
  import opened Probe
  import opened ResponderSetup
  import opened ResponderResponse

  /** defaultProbeTimeout (info/handler.go) */
  const DefaultProbeTimeout: Duration := 2 * Second

  /** The timeout runChecks uses: the configured one, or the default when it
      is not positive. */
  function EffectiveTimeout(timeout: Duration): (t: Duration)
    ensures t > 0
    ensures timeout > 0 ==> t == timeout
    ensures timeout <= 0 ==> t == DefaultProbeTimeout
  {
    if timeout <= 0 then DefaultProbeTimeout else timeout
  }

  /** The error runChecks reports for probe number `n` (1-based) failing with
      `err`. */
  function Classify(n: nat, err: Error, timeout: Duration): Error {
    if Is(err, DeadlineExceeded) then New("probe " + NatToString(n) + " timed out after " + DurationString(timeout))
    else if Is(err, Canceled) then New("probe " + NatToString(n) + " was cancelled")
    else Wrap("probe " + NatToString(n) + " failed: ", err)
  }

  /** The three kinds of report, checked in this order: a deadline anywhere
      on the chain is a time-out, then a cancellation, and anything else is
      wrapped so that it still unwraps to the probe's error. The first two
      are plain messages: they do not wrap the context error. */
  lemma ClassifyKinds(n: nat, err: Error, timeout: Duration)
    ensures var e := Classify(n, err, timeout);
      && (Is(err, DeadlineExceeded) ==>
            Text(e) == "probe " + NatToString(n) + " timed out after " + DurationString(timeout)
            && !Is(e, DeadlineExceeded) && Unwrap(e).None?)
      && (!Is(err, DeadlineExceeded) && Is(err, Canceled) ==>
            Text(e) == "probe " + NatToString(n) + " was cancelled" && !Is(e, Canceled) && Unwrap(e).None?)
      && (!Is(err, DeadlineExceeded) && !Is(err, Canceled) ==>
            Unwrap(e) == Some(err) && Text(e) == "probe " + NatToString(n) + " failed: " + Text(err)
            && (forall target :: Is(err, target) ==> Is(e, target)))
  {
  }

  /** Reports for different probe numbers differ: the report identifies
      the probe. */
  lemma ClassifyNamesTheProbe(m: nat, n: nat, err: Error, timeout: Duration)
    ensures Classify(m, err, timeout) == Classify(n, err, timeout) ==> m == n
  {
    if Classify(m, err, timeout) == Classify(n, err, timeout) {
      var pm, pn := "probe " + NatToString(m), "probe " + NatToString(n);
      if Is(err, DeadlineExceeded) {
        var late := " timed out after ";
        SameTail(pm + late, pn + late, DurationString(timeout));
        SameTail(pm, pn, late);
      } else if Is(err, Canceled) {
        SameTail(pm, pn, " was cancelled");
      } else {
        assert pm + " failed: " == pn + " failed: ";
        SameTail(pm, pn, " failed: ");
      }
      assert NatToString(m) == pm[6..] && NatToString(n) == pn[6..];
      NatToStringInjective(m, n);
    }
  }

  lemma SameTail(a: string, b: string, tail: string)
    requires a + tail == b + tail
    ensures a == b
  {
    assert |a| == |b|;
    assert a == (a + tail)[..|a|];
    assert b == (b + tail)[..|b|];
  }

  // ---------------------------------------------------------------------
  // The runner

  /** The first probe at or after `i` that is not nil and fails. */
  function FirstFailing(checks: seq<Func>, pctx: Context, i: nat): (j: Option<nat>)
    requires i <= |checks|
    ensures j.Some? ==> i <= j.value < |checks| && checks[j.value].Func? && checks[j.value].run(Some(pctx)).Some?
    decreases |checks| - i
  {
    if i == |checks| then None
    else if checks[i].Func? && checks[i].run(Some(pctx)).Some? then Some(i)
    else FirstFailing(checks, pctx, i + 1)
  }

  /** FirstFailing finds the earliest failing probe: none before it fails,
      and with no result every non-nil probe from `i` on succeeds. */
  lemma {:induction false} FirstFailingCharacterised(checks: seq<Func>, pctx: Context, i: nat)
    requires i <= |checks|
    ensures FirstFailing(checks, pctx, i).None? <==>
      forall k :: i <= k < |checks| && checks[k].Func? ==> checks[k].run(Some(pctx)).None?
    ensures FirstFailing(checks, pctx, i).Some? ==>
      var j := FirstFailing(checks, pctx, i).value;
      && checks[j].run(Some(pctx)).Some?
      && forall k :: i <= k < j && checks[k].Func? ==> checks[k].run(Some(pctx)).None?
    decreases |checks| - i
  {
    if i < |checks| {
      FirstFailingCharacterised(checks, pctx, i + 1);
    }
  }

  /** The indices below `n` that hold a probe, in increasing order. */
  function NonNilBelow(checks: seq<Func>, n: nat): (idx: seq<nat>)
    requires n <= |checks|
    ensures forall k :: 0 <= k < |idx| ==> idx[k] < n && checks[idx[k]].Func?
    decreases n
  {
    if n == 0 then []
    else NonNilBelow(checks, n - 1) + (if checks[n - 1].Func? then [n - 1] else [])
  }

  /** Each non-nil index below `n` occurs exactly once, in increasing order. */
  lemma {:induction false} NonNilBelowExactlyOnce(checks: seq<Func>, n: nat)
    requires n <= |checks|
    ensures forall a, b :: 0 <= a < b < |NonNilBelow(checks, n)| ==> NonNilBelow(checks, n)[a] < NonNilBelow(checks, n)[b]
    ensures forall k :: 0 <= k < n && checks[k].Func? ==> k in NonNilBelow(checks, n)
    decreases n
  {
    if n > 0 {
      NonNilBelowExactlyOnce(checks, n - 1);
    }
  }

  /** The first non-nil probe that fails under the probe context with the
      effective timeout, if any; none for an empty list. */
  function FailingProbe(timeout: Duration, ctx: Context, checks: seq<Func>): (j: Option<nat>)
    ensures j.Some? ==> j.value < |checks| && checks[j.value].Func?
  {
    if |checks| == 0 then None
    else FirstFailing(checks, WithTimeout(ctx, EffectiveTimeout(timeout)), 0)
  }

  /** The probe indices runChecks invokes: with no failure every non-nil
      one, else every non-nil one up to and including the first failure. */
  ghost function Invocations(timeout: Duration, ctx: Context, checks: seq<Func>): seq<nat> {
    match FailingProbe(timeout, ctx, checks)
    case None => NonNilBelow(checks, |checks|)
    case Some(j) => NonNilBelow(checks, j + 1)
  }

  /** What runChecks returns: nil when no probe fails; otherwise the report
      for the first failing probe, numbered from 1 in the original list, all
      probes getting the same context with the effective timeout. */
  function ChecksOutcome(timeout: Duration, ctx: Context, checks: seq<Func>): (r: Option<Error>)
    ensures r.None? <==> FailingProbe(timeout, ctx, checks).None?
  {
    match FailingProbe(timeout, ctx, checks)
    case None => None
    case Some(j) =>
      var t := EffectiveTimeout(timeout);
      Some(Classify(j + 1, checks[j].run(Some(WithTimeout(ctx, t))).value, t))
  }

  /** runChecks */
  method RunChecks(timeout: Duration, ctx: Context, checks: seq<Func>)
    returns (err: Option<Error>, ghost invoked: seq<nat>)
    ensures err == ChecksOutcome(timeout, ctx, checks)
    ensures invoked == Invocations(timeout, ctx, checks)
  {
    invoked := [];
    if |checks| == 0 {
      return None, invoked;
    }
    var t := timeout;
    if t <= 0 {
      t := DefaultProbeTimeout;
    }
    var probeCtx := WithTimeout(ctx, t);
    var idx := 0;
    while idx < |checks|
      invariant 0 <= idx <= |checks|
      invariant FirstFailing(checks, probeCtx, 0) == FirstFailing(checks, probeCtx, idx)
      invariant invoked == NonNilBelow(checks, idx)
    {
      var check := checks[idx];
      if check.NilFunc? {
        idx := idx + 1;
        continue;
      }
      invoked := invoked + [idx];
      var e := check.run(Some(probeCtx));
      if e.Some? {
        assert FailingProbe(timeout, ctx, checks) == Some(idx);
        assert ChecksOutcome(timeout, ctx, checks) == Some(Classify(idx + 1, e.value, t));
        assert invoked == Invocations(timeout, ctx, checks);
        if Is(e.value, DeadlineExceeded) {
          return Some(New("probe " + NatToString(idx + 1) + " timed out after " + DurationString(t))), invoked;
        }
        if Is(e.value, Canceled) {
          return Some(New("probe " + NatToString(idx + 1) + " was cancelled")), invoked;
        }
        return Some(Wrap("probe " + NatToString(idx + 1) + " failed: ", e.value)), invoked;
      }
      idx := idx + 1;
    }
    assert FailingProbe(timeout, ctx, checks).None?;
    return None, invoked;
  }

  /** The runner's contract in the source's words: an empty list and a list
      of passing or nil probes succeed; otherwise the probe reported (as
      number j + 1, nil entries counted) is the first non-nil probe that
      fails, and it is the last one invoked. */
  lemma RunChecksOutcome(timeout: Duration, ctx: Context, checks: seq<Func>)
    ensures var pctx := WithTimeout(ctx, EffectiveTimeout(timeout));
      && (FailingProbe(timeout, ctx, checks).None? <==>
            forall k :: 0 <= k < |checks| && checks[k].Func? ==> checks[k].run(Some(pctx)).None?)
      && (FailingProbe(timeout, ctx, checks).Some? ==>
            var j := FailingProbe(timeout, ctx, checks).value;
            && checks[j].run(Some(pctx)).Some?
            && (forall k :: 0 <= k < j && checks[k].Func? ==> checks[k].run(Some(pctx)).None?)
            && Invocations(timeout, ctx, checks) == NonNilBelow(checks, j + 1))
  {
    if |checks| > 0 {
      FirstFailingCharacterised(checks, WithTimeout(ctx, EffectiveTimeout(timeout)), 0);
    }
  }

  /** When every probe passes, each non-nil probe is invoked exactly once,
      in list order, and no nil entry is. */
  lemma AllPassInvokeEachOnce(timeout: Duration, ctx: Context, checks: seq<Func>)
    requires ChecksOutcome(timeout, ctx, checks).None?
    ensures var inv := Invocations(timeout, ctx, checks);
      && (forall a, b :: 0 <= a < b < |inv| ==> inv[a] < inv[b])
      && (forall k :: 0 <= k < |checks| ==> (k in inv <==> checks[k].Func?))
  {
    NonNilBelowExactlyOnce(checks, |checks|);
  }

  // ---------------------------------------------------------------------
  // filterProbes

  /** The non-nil probes of a list, in their order. */
  function NonNil(checks: seq<Func>): (r: seq<Func>)
    ensures |r| <= |checks|
    ensures forall k :: 0 <= k < |r| ==> r[k].Func?
    decreases |checks|
  {
    if |checks| == 0 then []
    else NonNil(checks[..|checks| - 1]) + (if checks[|checks| - 1].Func? then [checks[|checks| - 1]] else [])
  }

  /** NonNil keeps exactly the probes at the non-nil indices, in order; it is
      empty exactly when every entry is nil. */
  lemma NonNilIsTheSubsequence(checks: seq<Func>)
    ensures |NonNil(checks)| == |NonNilBelow(checks, |checks|)|
    ensures forall k :: 0 <= k < |NonNil(checks)| ==> NonNil(checks)[k] == checks[NonNilBelow(checks, |checks|)[k]]
    ensures |NonNil(checks)| == 0 <==> forall k :: 0 <= k < |checks| ==> checks[k].NilFunc?
  {
    NonNilPrefixMatchesBelow(checks, |checks|);
    assert checks[..|checks|] == checks;
    NonNilBelowEmpty(checks, |checks|);
  }

  /** The probes of the first `n` entries are those at the non-nil indices
      below `n`. */
  lemma {:induction false} NonNilPrefixMatchesBelow(checks: seq<Func>, n: nat)
    requires n <= |checks|
    ensures |NonNil(checks[..n])| == |NonNilBelow(checks, n)|
    ensures forall k :: 0 <= k < |NonNil(checks[..n])| ==> NonNil(checks[..n])[k] == checks[NonNilBelow(checks, n)[k]]
    decreases n
  {
    if n > 0 {
      NonNilPrefixMatchesBelow(checks, n - 1);
      assert checks[..n][..n - 1] == checks[..n - 1];
      assert checks[..n][n - 1] == checks[n - 1];
    }
  }

  /** No non-nil index below `n` exactly when every entry below `n` is nil. */
  lemma {:induction false} NonNilBelowEmpty(checks: seq<Func>, n: nat)
    requires n <= |checks|
    ensures |NonNilBelow(checks, n)| == 0 <==> forall k :: 0 <= k < n ==> checks[k].NilFunc?
    decreases n
  {
    if n > 0 {
      NonNilBelowEmpty(checks, n - 1);
    }
  }

  /** filterProbes: nil for a list without probes, else its probes in
      order. A nil slice and an empty one are both the empty sequence. */
  method FilterProbes(checks: seq<Func>) returns (filtered: seq<Func>)
    ensures filtered == NonNil(checks)
  {
    if |checks| == 0 {
      return [];
    }
    filtered := [];
    var i := 0;
    while i < |checks|
      invariant 0 <= i <= |checks|
      invariant filtered == NonNil(checks[..i])
    {
      assert checks[..i + 1][..i] == checks[..i];
      if checks[i].Func? {
        filtered := filtered + [checks[i]];
      }
      i := i + 1;
    }
    assert checks[..|checks|] == checks;
    if |filtered| == 0 {
      return [];
    }
  }

  // ---------------------------------------------------------------------
  // respondProbe

  /** probePayload: a status word and optional details. */
  datatype ProbePayload = ProbePayload(status: string, details: seq<string>)

  /** The JSON form: `status` always, `details` only when there are any. */
  function ProbeJson(p: ProbePayload): Json {
    JObject([("status", JString(p.status))]
            + (if |p.details| == 0 then [] else [("details", JArray(seq(|p.details|, k requires 0 <= k < |p.details| => JString(p.details[k]))))]))
  }

  /** The probe document has the given status, and has details exactly when
      some were given: the same strings in the same order. */
  lemma ProbeJsonMembers(state: string, details: seq<string>)
    ensures Member(ProbeJson(ProbePayload(state, details)), "status") == Some(JString(state))
    ensures Member(ProbeJson(ProbePayload(state, details)), "details").Some? <==> |details| > 0
    ensures |details| > 0 ==>
      var d := Member(ProbeJson(ProbePayload(state, details)), "details").value;
      d.JArray? && |d.items| == |details| && forall k :: 0 <= k < |details| ==> d.items[k] == JString(details[k])
  {
    var ms := ProbeJson(ProbePayload(state, details)).members;
    assert ms[0].0 == "status";
    if |details| > 0 {
      assert ms[1..][0].0 == "details";
      assert MemberOf(ms, "details") == MemberOf(ms[1..], "details");
    }
  }

  /** respondProbe: the payload as a JSON success response. */
  method RespondProbe(r: Responder, w: ResponseWriter, statusCode: int, state: string, details: seq<string>, env: Env)
    modifies w
    ensures w.State() == RespondState(old(w.State()), statusCode, ProbeJson(ProbePayload(state, details)),
                                      JsonContentType, env.encode, w.failure)
  {
    var payload := ProbePayload(state, []);
    if |details| > 0 {
      payload := payload.(details := payload.details + details);
      assert payload.details == [] + details == details;
    }
    assert payload == ProbePayload(state, details);
    RespondWithJSON(r, w, statusCode, ProbeJson(payload), env);
  }
}
