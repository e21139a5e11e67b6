/** responder/response.go: error dispatch and JSON responses. The JSON
    encoder, the trace identifier and the timestamp are inputs (`Env`). What
    each method leaves on the response writer is given by a function on
    `WriterState`, and the lemmas say what a client then receives. */
module ResponderResponse {
  import opened Wrappers
  import opened GoStd
  import opened GoHttp
  import opened Json
  import opened ResponderSetup
  import opened ResponderProblem

  /** What the responder takes from outside: the encoder behind
      jsonutil.Marshal, the next trace identifier and the current time. */
  datatype Env = Env(encode: Encoder, traceID: string, timestamp: string)

  /** marshalPayload: the encoded bytes with a trailing newline, added only
      when the encoding does not already end in one. */
  function MarshalPayload(encode: Encoder, payload: Json): (r: Result<seq<byte>, Error>)
    ensures encode(payload).Failure? <==> r.Failure?
    ensures r.Failure? ==> r.error == encode(payload).error
    ensures r.Success? ==>
      var data := encode(payload).value;
      && |r.value| > 0 && r.value[|r.value| - 1] == Newline
      && |data| <= |r.value| <= |data| + 1 && r.value[..|data|] == data
      && (|data| > 0 && data[|data| - 1] == Newline ==> r.value == data)
  {
    match encode(payload)
    case Failure(e) => Failure(e)
    case Success(data) =>
      if |data| == 0 || data[|data| - 1] != Newline then Success(data + [Newline]) else Success(data)
  }

  /** resolveContentType: the provided type, or the fallback when it is empty. */
  function ResolveContentType(provided: string, fallback: string): (r: string)
    ensures provided != "" ==> r == provided
    ensures provided == "" ==> r == fallback
    ensures r != "" <==> provided != "" || fallback != ""
  {
    if provided == "" then fallback else provided
  }

  /** The response writeResponse leaves. */
  function WriteResponseState(st: WriterState, status: int, contentType: string, body: seq<byte>,
                              failure: Option<Error>): WriterState {
    WriteState(WriteHeaderState(SetHeaderState(st, "Content-Type", contentType), status), body, failure)
  }

  /** The response respondWithJSON leaves: the payload with the requested
      status, or a plain-text 500 when the payload cannot be encoded. */
  function RespondState(st: WriterState, status: int, payload: Json, contentType: string,
                        encode: Encoder, failure: Option<Error>): WriterState {
    match MarshalPayload(encode, payload)
    case Failure(_) =>
      ErrorState(st, StatusText(StatusInternalServerError), StatusInternalServerError, failure)
    case Success(body) =>
      WriteResponseState(st, status, ResolveContentType(contentType, JsonContentType), body, failure)
  }

  /** The problem document HandleAPIError sends. */
  function ProblemFor(s: ResponderState, req: Option<Request>, status: int, err: Error, env: Env): Json {
    ProblemJson(BuildProblemDetails(req, status, err, StatusMetaFor(s, status), env.traceID, env.timestamp))
  }

  function APIErrorState(s: ResponderState, st: WriterState, req: Option<Request>, status: int,
                         err: Error, env: Env, failure: Option<Error>): WriterState {
    RespondState(st, status, ProblemFor(s, req, status, err, env), ProblemContentType, env.encode, failure)
  }

  /** The status HandleErrors reports: the classifier's when it claims the
      error, 500 otherwise. */
  function DispatchStatus(s: ResponderState, err: Error): (status: int)
    ensures s.errorClassifier.None? ==> status == StatusInternalServerError
    ensures s.errorClassifier.Some? && s.errorClassifier.value(err).1 ==> status == s.errorClassifier.value(err).0
    ensures s.errorClassifier.Some? && !s.errorClassifier.value(err).1 ==> status == StatusInternalServerError
  {
    var (status, handled) := ClassifyError(s, err);
    if handled then status else StatusInternalServerError
  }

  // ---------------------------------------------------------------------
  // The methods

  /** writeResponse: content type, status line, body; a failed write is
      only logged. */
  method WriteResponse(w: ResponseWriter, status: int, contentType: string, body: seq<byte>)
    modifies w
    ensures w.State() == WriteResponseState(old(w.State()), status, contentType, body, w.failure)
  {
    w.SetHeader("Content-Type", contentType);
    w.WriteHeader(status);
    var _ := w.Write(body);
  }

  /** respondWithJSON: nothing for a nil writer. */
  method RespondWithJSONAs(r: Responder, w: ResponseWriter?, status: int, payload: Json,
                           contentType: string, env: Env)
    modifies w
    ensures w != null ==> w.State() == RespondState(old(w.State()), status, payload, contentType, env.encode, w.failure)
  {
    if w == null {
      return;
    }
    var body := MarshalPayload(env.encode, payload);
    if body.Failure? {
      HttpError(w, StatusText(StatusInternalServerError), StatusInternalServerError);
      return;
    }
    WriteResponse(w, status, ResolveContentType(contentType, JsonContentType), body.value);
  }

  /** RespondWithJSON: a success response in application/json. */
  method RespondWithJSON(r: Responder, w: ResponseWriter?, status: int, payload: Json, env: Env)
    modifies w
    ensures w != null ==> w.State() == RespondState(old(w.State()), status, payload, JsonContentType, env.encode, w.failure)
  {
    RespondWithJSONAs(r, w, status, payload, JsonContentType, env);
  }

  /** HandleAPIError: nothing for a nil error; otherwise the problem
      document for the status in application/problem+json. */
  method HandleAPIError(r: Responder, w: ResponseWriter?, req: Option<Request>, status: int,
                        err: Option<Error>, env: Env)
    modifies w
    ensures w != null && err.None? ==> w.State() == old(w.State())
    ensures w != null && err.Some? ==>
      w.State() == APIErrorState(r.Value(), old(w.State()), req, status, err.value, env, w.failure)
  {
    if err.None? {
      return;
    }
    var meta := StatusMetaFor(r.Value(), status);
    var problem := BuildProblemDetails(req, status, err.value, meta, env.traceID, env.timestamp);
    RespondWithJSONAs(r, w, status, ProblemJson(problem), ProblemContentType, env);
  }

  method HandleInternalServerError(r: Responder, w: ResponseWriter?, req: Option<Request>, err: Option<Error>, env: Env)
    modifies w
    ensures w != null && err.None? ==> w.State() == old(w.State())
    ensures w != null && err.Some? ==>
      w.State() == APIErrorState(r.Value(), old(w.State()), req, StatusInternalServerError, err.value, env, w.failure)
  {
    HandleAPIError(r, w, req, StatusInternalServerError, err, env);
  }

  method HandleBadRequestError(r: Responder, w: ResponseWriter?, req: Option<Request>, err: Option<Error>, env: Env)
    modifies w
    ensures w != null && err.None? ==> w.State() == old(w.State())
    ensures w != null && err.Some? ==>
      w.State() == APIErrorState(r.Value(), old(w.State()), req, StatusBadRequest, err.value, env, w.failure)
  {
    HandleAPIError(r, w, req, StatusBadRequest, err, env);
  }

  method HandleUnauthorizedError(r: Responder, w: ResponseWriter?, req: Option<Request>, err: Option<Error>, env: Env)
    modifies w
    ensures w != null && err.None? ==> w.State() == old(w.State())
    ensures w != null && err.Some? ==>
      w.State() == APIErrorState(r.Value(), old(w.State()), req, StatusUnauthorized, err.value, env, w.failure)
  {
    HandleAPIError(r, w, req, StatusUnauthorized, err, env);
  }

  /** HandleErrors: nothing for a nil error; a classified error with the
      classifier's status; anything else as a 500. */
  method HandleErrors(r: Responder, w: ResponseWriter?, req: Option<Request>, err: Option<Error>, env: Env)
    modifies w
    ensures w != null && err.None? ==> w.State() == old(w.State())
    ensures w != null && err.Some? ==>
      w.State() == APIErrorState(r.Value(), old(w.State()), req, DispatchStatus(r.Value(), err.value), err.value, env, w.failure)
  {
    if err.None? {
      return;
    }
    var (status, handled) := ClassifyError(r.Value(), err.value);
    if handled {
      HandleAPIError(r, w, req, status, err, env);
      return;
    }
    HandleInternalServerError(r, w, req, err, env);
  }

  // ---------------------------------------------------------------------
  // What the client receives

  /** writeResponse before any status line, over a working connection: the
      client gets the status, the content type and the body after whatever
      was already written. */
  lemma WriteResponseOutcome(st: WriterState, status: int, contentType: string, body: seq<byte>)
    requires !st.wroteHeader
    ensures var st' := WriteResponseState(st, status, contentType, body, None);
      && StatusSent(st') == status
      && GetIn(st'.header, "Content-Type") == contentType
      && st'.body == st.body + body
  {
    SetThenGet(st, "Content-Type", contentType);
  }

  /** Before any status line, over a working connection, an encodable
      payload arrives with the requested status, the resolved content type
      and the newline-terminated encoding. */
  lemma RespondEncoded(st: WriterState, status: int, payload: Json, contentType: string, encode: Encoder)
    requires !st.wroteHeader
    requires encode(payload).Success?
    ensures var st' := RespondState(st, status, payload, contentType, encode, None);
      var data := encode(payload).value;
      && StatusSent(st') == status
      && GetIn(st'.header, "Content-Type") == ResolveContentType(contentType, JsonContentType)
      && st'.body == st.body + MarshalPayload(encode, payload).value
      && st'.body[|st.body|..][..|data|] == data && st'.body[|st'.body| - 1] == Newline
  {
    var body := MarshalPayload(encode, payload).value;
    var ct := ResolveContentType(contentType, JsonContentType);
    assert RespondState(st, status, payload, contentType, encode, None)
        == WriteResponseState(st, status, ct, body, None);
    WriteResponseOutcome(st, status, ct, body);
    assert (st.body + body)[|st.body|..] == body;
  }

  /** A payload the encoder rejects yields a 500 whose body is the reason
      phrase and a newline, whatever status was asked for. */
  lemma RespondUnencodable(status: int, payload: Json, contentType: string, encode: Encoder)
    requires encode(payload).Failure?
    ensures var st := RespondState(Unwritten, status, payload, contentType, encode, None);
      && StatusSent(st) == StatusInternalServerError
      && st.body == Utf8(StatusText(StatusInternalServerError) + "\n")
  {
  }

  /** A response that already has its status line keeps it: a later error
      report cannot change the status the client saw. */
  lemma StatusLineIsFinal(st: WriterState, status: int, payload: Json, contentType: string,
                          encode: Encoder, failure: Option<Error>)
    requires st.wroteHeader
    ensures StatusSent(RespondState(st, status, payload, contentType, encode, failure)) == StatusSent(st)
  {
  }

  /** A problem response before any status line, with an encoder that
      accepts it: the given status, the problem content type, and the
      problem document's status member equal to that status. */
  lemma APIErrorOutcome(s: ResponderState, st: WriterState, req: Option<Request>, status: int, err: Error, env: Env)
    requires !st.wroteHeader
    requires env.encode(ProblemFor(s, req, status, err, env)).Success?
    ensures var st' := APIErrorState(s, st, req, status, err, env, None);
      && StatusSent(st') == status
      && GetIn(st'.header, "Content-Type") == ProblemContentType
      && Member(ProblemFor(s, req, status, err, env), "status") == Some(JInt(status))
  {
    RespondEncoded(st, status, ProblemFor(s, req, status, err, env), ProblemContentType, env.encode);
    ProblemJsonMembers(BuildProblemDetails(req, status, err, StatusMetaFor(s, status), env.traceID, env.timestamp));
  }

  /** An error report on a fresh response: the dispatched status, the
      problem content type, and a problem document whose status member is
      that same status and whose detail is the error's message. */
  lemma HandleErrorsOutcome(s: ResponderState, req: Option<Request>, err: Error, env: Env)
    requires forall j :: env.encode(j).Success?
    ensures var status := DispatchStatus(s, err);
      var st := APIErrorState(s, Unwritten, req, status, err, env, None);
      var doc := ProblemFor(s, req, status, err, env);
      && StatusSent(st) == status
      && GetIn(st.header, "Content-Type") == ProblemContentType
      && st.body == MarshalPayload(env.encode, doc).value
      && Member(doc, "status") == Some(JInt(status))
      && Member(doc, "title") == Some(JString(StatusMetaFor(s, status).title))
  {
    var status := DispatchStatus(s, err);
    var p := BuildProblemDetails(req, status, err, StatusMetaFor(s, status), env.traceID, env.timestamp);
    ProblemJsonMembers(p);
    assert env.encode(ProblemJson(p)).Success?;
  }

  /** Without a classifier every error is reported as a 500 with the
      default 500 metadata's title. */
  lemma UnclassifiedIs500(err: Error)
    ensures DispatchStatus(DefaultResponderState, err) == 500
    ensures StatusMetaFor(DefaultResponderState, DispatchStatus(DefaultResponderState, err)).title == "Internal Server Error"
  {
  }
}
