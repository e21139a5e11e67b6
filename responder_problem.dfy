/** responder/problem.go: status metadata normalisation and the RFC 9457
    problem document (section 3.1 of RFC 9457: type, title, status, detail,
    instance) with the two extension members traceId and timestamp. */
module ResponderProblem {
  import opened Wrappers
  import opened GoStd
  import opened GoHttp
  import opened Json
  import opened ResponderSetup

  /** fmt.Sprintf("%s/%d", statusDocBaseURL, status) */
  function DefaultTypeURI(status: int): string {
    StatusDocBaseURL + "/" + IntToString(status)
  }

  /** normalizeStatusMeta: fills each empty field with its default and
      keeps every field that is already set. */
  function NormalizeStatusMeta(status: int, meta: StatusMeta): (r: StatusMeta)
    ensures r.logLevel != 0 && (meta.logLevel != 0 ==> r.logLevel == meta.logLevel)
    ensures meta.logLevel == 0 ==> r.logLevel == LevelError
    ensures r.title == (if meta.title == "" then StatusText(status) else meta.title)
    ensures r.logMsg == (if meta.logMsg == "" then r.title else meta.logMsg)
    ensures r.typeURI != ""
    ensures r.typeURI == (if meta.typeURI == "" then DefaultTypeURI(status) else meta.typeURI)
  {
    var level := if meta.logLevel == 0 then LevelError else meta.logLevel;
    var title := if meta.title == "" then StatusText(status) else meta.title;
    var msg := if meta.logMsg == "" then title else meta.logMsg;
    var typeURI := if meta.typeURI == "" then DefaultTypeURI(status) else meta.typeURI;
    StatusMeta(typeURI, title, level, msg)
  }

  /** Normalising twice is normalising once. */
  lemma NormalizeIdempotent(status: int, meta: StatusMeta)
    ensures NormalizeStatusMeta(status, NormalizeStatusMeta(status, meta)) == NormalizeStatusMeta(status, meta)
  {
  }

  /** A meta whose fields are all set is a fixed point, and a status with a
      reason phrase gets a complete meta from the empty one. */
  lemma NormalizeKeepsCompleteMeta(status: int, meta: StatusMeta)
    ensures meta.logLevel != 0 && meta.title != "" && meta.logMsg != "" && meta.typeURI != ""
            ==> NormalizeStatusMeta(status, meta) == meta
    ensures StatusText(status) != "" ==>
      var r := NormalizeStatusMeta(status, EmptyMeta);
      r.title != "" && r.logMsg == r.title && r.logLevel == LevelError && r.typeURI == DefaultTypeURI(status)
  {
  }

  /** statusMetaFor: the configured entry, or the empty one, normalised. */
  function StatusMetaFor(s: ResponderState, status: int): (r: StatusMeta)
    ensures status in s.statusMetadata ==> r == NormalizeStatusMeta(status, s.statusMetadata[status])
    ensures status !in s.statusMetadata ==> r == NormalizeStatusMeta(status, EmptyMeta)
  {
    var meta := if status in s.statusMetadata then s.statusMetadata[status] else EmptyMeta;
    NormalizeStatusMeta(status, meta)
  }

  /** After WithStatusMetadata(status, m) the status is reported with m's
      title (or the status text), m's type URI (or the documentation URL),
      and a non-zero level. */
  lemma ConfiguredStatusReported(s: ResponderState, status: int, m: StatusMetadata)
    ensures var r := StatusMetaFor(Applied(s, WithStatusMetadata(status, m)), status);
      && r.title == (if m.title == "" then StatusText(status) else m.title)
      && r.typeURI == (if m.typeURI == "" then DefaultTypeURI(status) else m.typeURI)
      && r.logLevel != 0
      && (m.logMsg != "" ==> r.logMsg == m.logMsg)
  {
  }

  /** The default table reports 500 with the Internal Server Error text and
      an https://httpstatuses.io/500 type. */
  lemma DefaultMetaFor500()
    ensures StatusMetaFor(DefaultResponderState, 500)
      == StatusMeta(DefaultTypeURI(500), "Internal Server Error", LevelError, "Internal Server Error")
  {
    var table := DefaultStatusMetadata();
    assert table[500] == StatusMeta("", StatusText(500), LevelError, "Internal Server Error");
    assert StatusText(500) == "Internal Server Error";
  }

  /** ProblemDetails */
  datatype ProblemDetails = ProblemDetails(
    typeURI: string,
    title: string,
    status: int,
    detail: string,
    instance: string,
    traceID: string,
    timestamp: string)

  /** requestInstance: the request URI, or "" without a request. */
  function RequestInstance(req: Option<Request>): string {
    if req.None? then "" else req.value.requestURI
  }

  /** buildProblemDetails: the trace identifier and the timestamp come from
      the caller (they are random and clock-based in the source). */
  function BuildProblemDetails(req: Option<Request>, status: int, err: Error, meta: StatusMeta,
                               traceID: string, timestamp: string): (p: ProblemDetails)
    ensures p.status == status && p.detail == Text(err)
    ensures p.title == meta.title && p.typeURI == meta.typeURI
    ensures p.instance == RequestInstance(req)
  {
    ProblemDetails(meta.typeURI, meta.title, status, Text(err), RequestInstance(req), traceID, timestamp)
  }

  /** A member written only when its value is not empty (omitempty). */
  function OmitEmpty(name: string, value: string): seq<(string, Json)> {
    if value == "" then [] else [(name, JString(value))]
  }

  /** The JSON document a ProblemDetails encodes to, with the json tags of
      the struct: type, detail, instance, traceId and timestamp are omitted
      when empty; title and status are always present. */
  function ProblemJson(p: ProblemDetails): Json {
    JObject(OmitEmpty("type", p.typeURI) + ProblemTail(p))
  }

  /** The members after `type`, in the order of the struct's fields. */
  function ProblemTail(p: ProblemDetails): seq<(string, Json)> {
    [("title", JString(p.title)), ("status", JInt(p.status))]
      + (OmitEmpty("detail", p.detail) + OmitEmpty("instance", p.instance)
         + OmitEmpty("traceId", p.traceID) + OmitEmpty("timestamp", p.timestamp))
  }

  /** After `type` come title and status, and no other `type`. */
  lemma ProblemTailShape(p: ProblemDetails)
    ensures |ProblemTail(p)| >= 2
    ensures ProblemTail(p)[0] == ("title", JString(p.title))
    ensures ProblemTail(p)[1] == ("status", JInt(p.status))
    ensures forall k :: 0 <= k < |ProblemTail(p)| ==> ProblemTail(p)[k].0 != "type"
  {
    var rest := OmitEmpty("detail", p.detail) + OmitEmpty("instance", p.instance)
                + OmitEmpty("traceId", p.traceID) + OmitEmpty("timestamp", p.timestamp);
    assert forall k :: 0 <= k < |rest| ==> |rest[k].0| != 4;
  }

  /** The problem document holds its title and status, and holds the
      optional members exactly when they are set. */
  lemma ProblemJsonMembers(p: ProblemDetails)
    ensures Member(ProblemJson(p), "title") == Some(JString(p.title))
    ensures Member(ProblemJson(p), "status") == Some(JInt(p.status))
    ensures "type" in MemberNames(ProblemJson(p).members) <==> p.typeURI != ""
  {
    ProblemTailShape(p);
    var tail := ProblemTail(p);
    TailMembers(OmitEmpty("type", p.typeURI), tail, "title", 0);
    TailMembers(OmitEmpty("type", p.typeURI), tail, "status", 1);
    TailNames(OmitEmpty("type", p.typeURI), tail, "type");
  }

  /** A name absent from the tail is among the names exactly when the
      optional leading member carries it. */
  lemma TailNames(t: seq<(string, Json)>, tail: seq<(string, Json)>, name: string)
    requires |t| <= 1
    requires forall i :: 0 <= i < |tail| ==> tail[i].0 != name
    ensures name in MemberNames(t + tail) <==> |t| == 1 && t[0].0 == name
  {
    var names := MemberNames(t + tail);
    if |t| == 1 && t[0].0 == name {
      assert names[0] == name;
    } else {
      forall i | 0 <= i < |names| ensures names[i] != name {
        if i >= |t| {
          assert (t + tail)[i] == tail[i - |t|];
        }
      }
    }
  }

  /** A member of the tail that no earlier member shadows is what lookup
      finds past an optional `type` member. */
  lemma TailMembers(t: seq<(string, Json)>, tail: seq<(string, Json)>, name: string, k: nat)
    requires |t| <= 1 && (|t| == 1 ==> t[0].0 != name)
    requires k < |tail| && tail[k].0 == name
    requires forall i :: 0 <= i < k ==> tail[i].0 != name
    ensures MemberOf(t + tail, name) == Some(tail[k].1)
  {
    MemberOfFirst(tail, name, k);
    if |t| == 1 {
      assert (t + tail)[1..] == tail;
    } else {
      assert t + tail == tail;
    }
  }

  /** The first member with a given name is the one that lookup finds. */
  lemma {:induction false} MemberOfFirst(ms: seq<(string, Json)>, name: string, k: nat)
    requires k < |ms| && ms[k].0 == name
    requires forall i :: 0 <= i < k ==> ms[i].0 != name
    ensures MemberOf(ms, name) == Some(ms[k].1)
  {
    if k > 0 {
      MemberOfFirst(ms[1..], name, k - 1);
    }
  }
}
