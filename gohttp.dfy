/** The parts of Go's net/http that the core uses: status texts, the method
    names, header-key canonicalisation, request headers (a mutable map), and
    a response writer whose observable state is the header map, the status
    line and the body. */
module GoHttp {
  import opened Wrappers
  import opened GoStd

  const StatusOK := 200
  const StatusBadRequest := 400
  const StatusUnauthorized := 401
  const StatusInternalServerError := 500
  const StatusServiceUnavailable := 503

  const MethodGet := "GET"
  const MethodOptions := "OPTIONS"

  /** http.StatusText: the reason phrase of a status code, "" if unknown. */
  function StatusText(code: int): string {
    match code
    case 100 => "Continue"
    case 101 => "Switching Protocols"
    case 102 => "Processing"
    case 103 => "Early Hints"
    case 200 => "OK"
    case 201 => "Created"
    case 202 => "Accepted"
    case 203 => "Non-Authoritative Information"
    case 204 => "No Content"
    case 205 => "Reset Content"
    case 206 => "Partial Content"
    case 207 => "Multi-Status"
    case 208 => "Already Reported"
    case 226 => "IM Used"
    case 300 => "Multiple Choices"
    case 301 => "Moved Permanently"
    case 302 => "Found"
    case 303 => "See Other"
    case 304 => "Not Modified"
    case 305 => "Use Proxy"
    case 307 => "Temporary Redirect"
    case 308 => "Permanent Redirect"
    case 400 => "Bad Request"
    case 401 => "Unauthorized"
    case 402 => "Payment Required"
    case 403 => "Forbidden"
    case 404 => "Not Found"
    case 405 => "Method Not Allowed"
    case 406 => "Not Acceptable"
    case 407 => "Proxy Authentication Required"
    case 408 => "Request Timeout"
    case 409 => "Conflict"
    case 410 => "Gone"
    case 411 => "Length Required"
    case 412 => "Precondition Failed"
    case 413 => "Request Entity Too Large"
    case 414 => "Request URI Too Long"
    case 415 => "Unsupported Media Type"
    case 416 => "Requested Range Not Satisfiable"
    case 417 => "Expectation Failed"
    case 418 => "I'm a teapot"
    case 421 => "Misdirected Request"
    case 422 => "Unprocessable Entity"
    case 423 => "Locked"
    case 424 => "Failed Dependency"
    case 425 => "Too Early"
    case 426 => "Upgrade Required"
    case 428 => "Precondition Required"
    case 429 => "Too Many Requests"
    case 431 => "Request Header Fields Too Large"
    case 451 => "Unavailable For Legal Reasons"
    case 500 => "Internal Server Error"
    case 501 => "Not Implemented"
    case 502 => "Bad Gateway"
    case 503 => "Service Unavailable"
    case 504 => "Gateway Timeout"
    case 505 => "HTTP Version Not Supported"
    case 506 => "Variant Also Negotiates"
    case 507 => "Insufficient Storage"
    case 508 => "Loop Detected"
    case 510 => "Not Extended"
    case 511 => "Network Authentication Required"
    case _ => ""
  }

  // ---------------------------------------------------------------------
  // Header keys (textproto.CanonicalMIMEHeaderKey)

  /** The bytes allowed in a header field name (RFC 7230 token characters). */
  predicate IsTokenChar(c: char) {
    ('a' <= c <= 'z') || ('A' <= c <= 'Z') || ('0' <= c <= '9')
    || c == '!' || c == '#' || c == '$' || c == '%' || c == '&' || c == '\''
    || c == '*' || c == '+' || c == '-' || c == '.' || c == '^' || c == '_'
    || c == '`' || c == '|' || c == '~'
  }

  predicate AllTokenChars(s: string) {
    forall i :: 0 <= i < |s| ==> IsTokenChar(s[i])
  }

  function CaseFor(c: char, upper: bool): char {
    if upper && 'a' <= c <= 'z' then (c as int - 32) as char
    else if !upper && 'A' <= c <= 'Z' then (c as int + 32) as char
    else c
  }

  /** Upper-cases the first letter and every letter after a '-', lower-cases
      the rest; `upper` says whether the first character starts a word. */
  function CanonicalWords(s: string, upper: bool): (r: string)
    ensures |r| == |s|
  {
    if |s| == 0 then "" else [CaseFor(s[0], upper)] + CanonicalWords(s[1..], s[0] == '-')
  }

  /** http.CanonicalHeaderKey: "content-type" becomes "Content-Type"; a key
      holding a space or another non-token character is returned as is. */
  function CanonicalHeaderKey(s: string): string {
    if AllTokenChars(s) then CanonicalWords(s, true) else s
  }

  lemma {:induction false} CanonicalWordsIdempotent(s: string, upper: bool)
    ensures CanonicalWords(CanonicalWords(s, upper), upper) == CanonicalWords(s, upper)
    ensures AllTokenChars(s) ==> AllTokenChars(CanonicalWords(s, upper))
  {
    if |s| > 0 {
      var r := CanonicalWords(s, upper);
      assert r[1..] == CanonicalWords(s[1..], s[0] == '-');
      assert r[0] == '-' <==> s[0] == '-';
      CanonicalWordsIdempotent(s[1..], s[0] == '-');
      if AllTokenChars(s) {
        assert AllTokenChars(s[1..]) by {
          forall i | 0 <= i < |s[1..]| ensures IsTokenChar(s[1..][i]) {
            assert s[1..][i] == s[i + 1];
          }
        }
        forall i | 0 <= i < |r| ensures IsTokenChar(r[i]) {
          if i > 0 {
            assert r[i] == r[1..][i - 1];
          }
        }
      }
    }
  }

  /** Canonicalising a canonical key changes nothing. */
  lemma CanonicalHeaderKeyIdempotent(s: string)
    ensures CanonicalHeaderKey(CanonicalHeaderKey(s)) == CanonicalHeaderKey(s)
  {
    CanonicalWordsIdempotent(s, true);
  }

  // ---------------------------------------------------------------------
  // Requests

  /** An http.Header: a map from canonical keys to value lists, shared by
      reference like the Go map it stands for. */
  class Header {
    var entries: map<string, seq<string>>

    constructor (entries: map<string, seq<string>>)
      ensures this.entries == entries
    {
      this.entries := entries;
    }

    /** Header.Get: the first value under the canonical form of `key`. */
    function Get(key: string): (v: string)
      reads this
    {
      GetIn(entries, key)
    }
  }

  function GetIn(entries: map<string, seq<string>>, key: string): string {
    var k := CanonicalHeaderKey(key);
    if k in entries && |entries[k]| > 0 then entries[k][0] else ""
  }

  /** The parts of an *http.Request the core reads. */
  datatype Request = Request(
    httpMethod: string,  // r.Method
    path: string,        // r.URL.Path
    requestURI: string,  // r.URL.RequestURI()
    header: Header,
    contentLength: int,
    context: Context)

  // ---------------------------------------------------------------------
  // Responses

  /** The writer's side of a response: its header map (changes made after
      the status line stay in the map but no longer reach the client),
      whether the status line has gone out and with which code, and the
      body bytes sent. */
  datatype WriterState = WriterState(
    header: map<string, seq<string>>,
    wroteHeader: bool,
    code: int,
    body: seq<byte>)

  const Unwritten := WriterState(map[], false, 0, [])

  /** The status the client receives: a handler that never writes a status
      line gets 200. */
  function StatusSent(st: WriterState): int {
    if st.wroteHeader then st.code else StatusOK
  }

  function SetHeaderState(st: WriterState, key: string, value: string): WriterState {
    st.(header := st.header[CanonicalHeaderKey(key) := [value]])
  }

  function DelHeaderState(st: WriterState, key: string): WriterState {
    st.(header := st.header - {CanonicalHeaderKey(key)})
  }

  /** WriteHeader: only the first status line counts. */
  function WriteHeaderState(st: WriterState, code: int): WriterState {
    if st.wroteHeader then st else st.(wroteHeader := true, code := code)
  }

  /** Write: sends an implicit 200 first; a broken connection drops the bytes. */
  function WriteState(st: WriterState, data: seq<byte>, failure: Option<Error>): WriterState {
    var sent := WriteHeaderState(st, StatusOK);
    if failure.Some? then sent else sent.(body := sent.body + data)
  }

  /** Header().Set then Header().Get: the value just set is read back under
      any spelling of the key, and keys with another canonical form keep
      what they had. */
  lemma SetThenGet(st: WriterState, key: string, value: string)
    ensures GetIn(SetHeaderState(st, key, value).header, key) == value
    ensures forall other :: CanonicalHeaderKey(other) != CanonicalHeaderKey(key) ==>
      GetIn(SetHeaderState(st, key, value).header, other) == GetIn(st.header, other)
  {
  }

  /** An http.ResponseWriter. `failure` stands for the connection: when it is
      `Some(e)` every Write fails with `e`. */
  class ResponseWriter {
    var header: map<string, seq<string>>
    var wroteHeader: bool
    var code: int
    var body: seq<byte>
    const failure: Option<Error>

    function State(): WriterState
      reads this
    {
      WriterState(header, wroteHeader, code, body)
    }

    constructor (failure: Option<Error>)
      ensures State() == Unwritten && this.failure == failure
    {
      header, wroteHeader, code, body := map[], false, 0, [];
      this.failure := failure;
    }

    /** w.Header().Set(key, value) */
    method SetHeader(key: string, value: string)
      modifies this
      ensures State() == SetHeaderState(old(State()), key, value)
    {
      header := header[CanonicalHeaderKey(key) := [value]];
    }

    /** w.Header().Del(key) */
    method DelHeader(key: string)
      modifies this
      ensures State() == DelHeaderState(old(State()), key)
    {
      header := header - {CanonicalHeaderKey(key)};
    }

    method WriteHeader(status: int)
      modifies this
      ensures State() == WriteHeaderState(old(State()), status)
    {
      if !wroteHeader {
        wroteHeader, code := true, status;
      }
    }

    method Write(data: seq<byte>) returns (err: Option<Error>)
      modifies this
      ensures State() == WriteState(old(State()), data, failure)
      ensures err == failure
    {
      WriteHeader(StatusOK);
      if failure.None? {
        body := body + data;
      }
      err := failure;
    }
  }

  /** The response http.Error leaves behind. */
  function ErrorState(st: WriterState, text: string, code: int, failure: Option<Error>): WriterState {
    var st1 := DelHeaderState(st, "Content-Length");
    var st2 := SetHeaderState(st1, "Content-Type", "text/plain; charset=utf-8");
    var st3 := SetHeaderState(st2, "X-Content-Type-Options", "nosniff");
    WriteState(WriteHeaderState(st3, code), Utf8(text + "\n"), failure)
  }

  /** http.Error: a plain-text error response. */
  method HttpError(w: ResponseWriter, text: string, code: int)
    modifies w
    ensures w.State() == ErrorState(old(w.State()), text, code, w.failure)
  {
    w.DelHeader("Content-Length");
    w.SetHeader("Content-Type", "text/plain; charset=utf-8");
    w.SetHeader("X-Content-Type-Options", "nosniff");
    w.WriteHeader(code);
    var _ := w.Write(Utf8(text + "\n"));
  }
}
