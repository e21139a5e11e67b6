/** probe/probe.go: the probe constructors. Each constructor returns a
    closure; here a probe is the function it closes over, and its guards
    (missing collaborator, nil context, empty target) are proved about the
    function each closure runs. The collaborators themselves (the ping
    function, the database and MongoDB clients, the HTTP round trip) are
    parameters whose results are not modelled. */
module Probe {
  import opened Wrappers
  import opened GoStd
  import opened GoHttp
  import opened ProbeHelpers

  /** probe.Func: a health check called with a possibly nil context
      (`None`); `Some(e)` is a failure. A nil Func is `NilFunc`. */
  datatype Func = NilFunc | Func(run: Option<Context> -> Option<Error>)

  /** PingFunc, and DBPinger.PingContext: the check behind a probe, called
      with a non-nil context. */
  type PingFunc = Context -> Option<Error>

  /** readpref.ReadPref: the primary preference or another one. */
  datatype ReadPref = Primary | OtherPref(id: nat)

  /** MongoPinger.Ping */
  type MongoPinger = (Context, ReadPref) -> Option<Error>

  // ---------------------------------------------------------------------
  // NewPingProbe

  /** The closure of NewPingProbe(name, fn), called with `ctx`. */
  function PingRun(name: string, fn: Option<PingFunc>, ctx: Option<Context>): Option<Error> {
    if fn.None? then Some(New(name + " probe: ping function is nil"))
    else
      match fn.value(ContextOrBackground(ctx))
      case None => None
      case Some(err) => Some(Wrap(name + " probe failed: ", err))
  }

  function NewPingProbe(name: string, fn: Option<PingFunc>): (f: Func)
    ensures f.Func?
  {
    Func(ctx => PingRun(name, fn, ctx))
  }

  /** A nil ping function fails every call with the same message. */
  lemma PingWithoutFunction(name: string, ctx: Option<Context>)
    ensures NewPingProbe(name, None).run(ctx) == Some(New(name + " probe: ping function is nil"))
  {
  }

  /** With a ping function: the check sees the context, or the background
      one for a nil context; success is nil, and a failure is reported as
      "<name> probe failed: ..." and still unwraps to the ping's own error. */
  lemma PingOutcome(name: string, fn: PingFunc, ctx: Option<Context>)
    ensures var r := NewPingProbe(name, Some(fn)).run(ctx);
      && (r.None? <==> fn(ContextOrBackground(ctx)).None?)
      && (r.Some? ==>
            && Unwrap(r.value) == fn(ContextOrBackground(ctx))
            && Text(r.value) == name + " probe failed: " + Text(fn(ContextOrBackground(ctx)).value)
            && (forall target :: Is(fn(ContextOrBackground(ctx)).value, target) ==> Is(r.value, target)))
  {
  }

  /** A nil context behaves exactly as the background context. */
  lemma PingNilContextIsBackground(name: string, fn: Option<PingFunc>)
    ensures NewPingProbe(name, fn).run(None) == NewPingProbe(name, fn).run(Some(Background))
  {
  }

  // ---------------------------------------------------------------------
  // NewMongoPingProbe

  /** The closure of NewMongoPingProbe(client, readPref). */
  function MongoRun(client: Option<MongoPinger>, readPref: Option<ReadPref>, ctx: Option<Context>): Option<Error> {
    if client.None? then Some(New("mongo probe: client is nil"))
    else
      var rp := if readPref.None? then Primary else readPref.value;
      match client.value(ContextOrBackground(ctx), rp)
      case None => None
      case Some(err) => Some(Wrap("mongo probe failed: ", err))
  }

  function NewMongoPingProbe(client: Option<MongoPinger>, readPref: Option<ReadPref>): (f: Func)
    ensures f.Func?
  {
    Func(ctx => MongoRun(client, readPref, ctx))
  }

  /** A nil client fails without a ping; otherwise the client is pinged with
      the given preference, Primary when none is given, and a failure
      unwraps to the client's error. */
  lemma MongoOutcome(client: Option<MongoPinger>, readPref: Option<ReadPref>, ctx: Option<Context>)
    ensures client.None? ==>
      NewMongoPingProbe(client, readPref).run(ctx) == Some(New("mongo probe: client is nil"))
    ensures client.Some? ==>
      var rp := if readPref.Some? then readPref.value else Primary;
      var r := NewMongoPingProbe(client, readPref).run(ctx);
      var outcome := client.value(ContextOrBackground(ctx), rp);
      && (r.None? <==> outcome.None?)
      && (r.Some? ==> Unwrap(r.value) == outcome && Text(r.value) == "mongo probe failed: " + Text(outcome.value))
  {
  }

  // ---------------------------------------------------------------------
  // NewDBPingProbe

  /** The closure of NewDBPingProbe(name, db). */
  function DBRun(name: string, db: Option<PingFunc>, ctx: Option<Context>): Option<Error> {
    if db.None? then Some(New(name + " probe: db client is nil"))
    else
      match db.value(ContextOrBackground(ctx))
      case None => None
      case Some(err) => Some(Wrap(name + " probe failed: ", err))
  }

  function NewDBPingProbe(name: string, db: Option<PingFunc>): (f: Func)
    ensures f.Func?
  {
    Func(ctx => DBRun(name, db, ctx))
  }

  /** A nil database client fails without a ping; otherwise the database is
      pinged with the context or the background one, and a failure unwraps
      to the driver's error. */
  lemma DBOutcome(name: string, db: Option<PingFunc>, ctx: Option<Context>)
    ensures db.None? ==> NewDBPingProbe(name, db).run(ctx) == Some(New(name + " probe: db client is nil"))
    ensures db.Some? ==>
      var r := NewDBPingProbe(name, db).run(ctx);
      var outcome := db.value(ContextOrBackground(ctx));
      && (r.None? <==> outcome.None?)
      && (r.Some? ==> Unwrap(r.value) == outcome && Text(r.value) == name + " probe failed: " + Text(outcome.value))
  {
  }

  // ---------------------------------------------------------------------
  // NewHTTPProbe

  /** An HTTPDoer: http.DefaultClient or a caller's client. */
  datatype Doer = DefaultClient | Client(id: nat)

  /** The request the probe builds. */
  datatype OutRequest = OutRequest(httpMethod: string, url: string, context: Context)

  /** What the probe takes from outside: http.NewRequestWithContext, which
      can reject the method or the URL, and the round trip of a Doer, which
      yields the response status or a transport error. */
  datatype Transport = Transport(
    newRequest: (Context, string, string) -> Result<OutRequest, Error>,
    roundTrip: (Doer, OutRequest) -> Result<int, Error>)

  /** The verb: trimmed and upper-cased, GET when nothing is left. */
  function RequestVerb(httpMethod: string): (verb: string)
    ensures verb != ""
    ensures AllSpace(httpMethod) ==> verb == MethodGet
    ensures !AllSpace(httpMethod) ==> verb == ToUpper(TrimSpace(httpMethod))
  {
    var verb := ToUpper(TrimSpace(httpMethod));
    if verb == "" then MethodGet else verb
  }

  /** The closure of NewHTTPProbe(name, httpMethod, target, client). */
  function HTTPRun(name: string, httpMethod: string, target: string, client: Option<Doer>,
                   net: Transport, ctx: Option<Context>): Option<Error> {
    var trimmedTarget := TrimSpace(target);
    if trimmedTarget == "" then Some(New(name + " probe: target URL is required"))
    else
      match net.newRequest(ContextOrBackground(ctx), RequestVerb(httpMethod), trimmedTarget)
      case Failure(err) => Some(Wrap(name + " probe: failed to build request: ", err))
      case Success(req) =>
        var d := if client.None? then DefaultClient else client.value;
        match net.roundTrip(d, req)
        case Failure(err) => Some(Wrap(name + " probe request failed: ", err))
        case Success(status) =>
          if status < 200 || status >= 300 then Some(New(name + " probe received status " + IntToString(status)))
          else None
  }

  function NewHTTPProbe(name: string, httpMethod: string, target: string, client: Option<Doer>, net: Transport): (f: Func)
    ensures f.Func?
  {
    Func(ctx => HTTPRun(name, httpMethod, target, client, net, ctx))
  }

  /** A target that is empty after trimming fails before any request is
      built. */
  lemma HTTPProbeNeedsTarget(name: string, httpMethod: string, target: string, client: Option<Doer>,
                             net: Transport, ctx: Option<Context>)
    requires AllSpace(target)
    ensures NewHTTPProbe(name, httpMethod, target, client, net).run(ctx)
      == Some(New(name + " probe: target URL is required"))
  {
  }

  /** Once a request is built with the normalised verb and trimmed target
      and the round trip answers, the probe succeeds exactly on a 2xx
      status; a missing client means the default one. */
  lemma HTTPProbeStatus(name: string, httpMethod: string, target: string, client: Option<Doer>,
                        net: Transport, ctx: Option<Context>, req: OutRequest, status: int)
    requires !AllSpace(target)
    requires net.newRequest(ContextOrBackground(ctx), RequestVerb(httpMethod), TrimSpace(target)) == Success(req)
    requires net.roundTrip(if client.Some? then client.value else DefaultClient, req) == Success(status)
    ensures var r := NewHTTPProbe(name, httpMethod, target, client, net).run(ctx);
      && (r.None? <==> DefaultHTTPStatusExpectation(status))
      && (r.Some? ==> r.value == New(name + " probe received status " + IntToString(status)))
  {
  }

  /** A transport failure is reported as "<name> probe request failed: ..."
      and unwraps to the transport's error. */
  lemma HTTPProbeTransportFailure(name: string, httpMethod: string, target: string, client: Option<Doer>,
                                  net: Transport, ctx: Option<Context>, req: OutRequest, err: Error)
    requires !AllSpace(target)
    requires net.newRequest(ContextOrBackground(ctx), RequestVerb(httpMethod), TrimSpace(target)) == Success(req)
    requires net.roundTrip(if client.Some? then client.value else DefaultClient, req) == Failure(err)
    ensures var r := NewHTTPProbe(name, httpMethod, target, client, net).run(ctx);
      r.Some? && Unwrap(r.value) == Some(err) && Text(r.value) == name + " probe request failed: " + Text(err)
  {
  }
}
