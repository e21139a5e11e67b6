/** responder/responder.go: the Responder record, its options, the default
    status metadata, the error classifier and the logger fallback. */
module ResponderSetup {
  import opened Wrappers
  import opened GoStd
  import opened GoHttp

  const JsonContentType := "application/json"
  const ProblemContentType := "application/problem+json"
  const StatusDocBaseURL := "https://httpstatuses.io"

  /** statusMeta: how one status code is reported and logged. */
  datatype StatusMeta = StatusMeta(typeURI: string, title: string, logLevel: Level, logMsg: string)

  const EmptyMeta := StatusMeta("", "", 0, "")

  /** StatusMetadata: the caller-facing form of statusMeta. */
  datatype StatusMetadata = StatusMetadata(typeURI: string, title: string, logLevel: Level, logMsg: string)

  /** ErrorClassifierFunc: the status for an error, and whether it applies. */
  type Classifier = Error -> (int, bool)

  /** A snapshot of the Responder record. A nil status map reads like an
      empty one, so both are the empty map here. */
  datatype ResponderState = ResponderState(
    log: Option<Logger>,
    statusMetadata: map<int, StatusMeta>,
    errorClassifier: Option<Classifier>)

  /** defaultStatusMetadata() */
  function DefaultStatusMetadata(): map<int, StatusMeta> {
    map[
      StatusInternalServerError := StatusMeta("", StatusText(StatusInternalServerError), LevelError, "Internal Server Error"),
      StatusBadRequest := StatusMeta("", StatusText(StatusBadRequest), LevelWarn, "Bad Request"),
      StatusUnauthorized := StatusMeta("", StatusText(StatusUnauthorized), LevelWarn, "Unauthorized")]
  }

  /** The table knows 500 at error level and 400 and 401 at warning level,
      each titled with its status text and logged with that same text. */
  lemma DefaultStatusMetadataContents()
    ensures DefaultStatusMetadata().Keys == {500, 400, 401}
    ensures DefaultStatusMetadata()[500].logLevel == LevelError
    ensures DefaultStatusMetadata()[400].logLevel == LevelWarn
    ensures DefaultStatusMetadata()[401].logLevel == LevelWarn
    ensures forall k :: k in DefaultStatusMetadata() ==>
      DefaultStatusMetadata()[k].title == StatusText(k) == DefaultStatusMetadata()[k].logMsg
      && DefaultStatusMetadata()[k].typeURI == ""
  {
    assert StatusText(StatusInternalServerError) == "Internal Server Error";
    assert StatusText(StatusBadRequest) == "Bad Request";
    assert StatusText(StatusUnauthorized) == "Unauthorized";
  }

  const DefaultResponderState := ResponderState(Some(DefaultLogger), DefaultStatusMetadata(), None)

  /** The ResponderOption values of responder.go, and a nil option. */
  datatype ResponderOption =
    | NilResponderOption
    | WithLogger(logger: Option<Logger>)
    | WithErrorClassifier(classifier: Option<Classifier>)
    | WithStatusMetadata(status: int, meta: StatusMetadata)

  /** The entry WithStatusMetadata stores: level, title and log message get
      defaults; the type URI is kept as given. */
  function ConfiguredMeta(status: int, meta: StatusMetadata): (r: StatusMeta)
    ensures r.typeURI == meta.typeURI
    ensures r.logLevel != 0 && (meta.logLevel != 0 ==> r.logLevel == meta.logLevel)
    ensures r.title == (if meta.title == "" then StatusText(status) else meta.title)
    ensures meta.logMsg != "" ==> r.logMsg == meta.logMsg
    ensures meta.logMsg == "" ==> r.logMsg == r.title
  {
    var level := if meta.logLevel == 0 then LevelError else meta.logLevel;
    var title := if meta.title == "" then StatusText(status) else meta.title;
    var msg := if meta.logMsg == "" then title else meta.logMsg;
    StatusMeta(meta.typeURI, title, level, msg)
  }

  /** slog.LevelInfo is the zero Level, so metadata configured at Info level
      is stored at Error level. */
  lemma InfoLevelBecomesError(status: int, meta: StatusMetadata)
    requires meta.logLevel == LevelInfo
    ensures ConfiguredMeta(status, meta).logLevel == LevelError
  {
  }

  function Applied(s: ResponderState, opt: ResponderOption): ResponderState
    requires !opt.NilResponderOption?
  {
    match opt
    case WithLogger(l) => if l.Some? then s.(log := l) else s
    case WithErrorClassifier(c) => s.(errorClassifier := c)
    case WithStatusMetadata(status, meta) =>
      s.(statusMetadata := s.statusMetadata[status := ConfiguredMeta(status, meta)])
  }

  /** The option loop of NewResponder. */
  function ApplyAll(s: ResponderState, opts: seq<ResponderOption>): ResponderState
    decreases |opts|
  {
    if |opts| == 0 then s
    else if opts[0].NilResponderOption? then ApplyAll(s, opts[1..])
    else ApplyAll(Applied(s, opts[0]), opts[1..])
  }

  lemma {:induction false} ApplyAllSnoc(s: ResponderState, opts: seq<ResponderOption>, opt: ResponderOption)
    ensures ApplyAll(s, opts + [opt]) ==
      if opt.NilResponderOption? then ApplyAll(s, opts) else Applied(ApplyAll(s, opts), opt)
    decreases |opts|
  {
    if |opts| > 0 {
      assert (opts + [opt])[1..] == opts[1..] + [opt];
      var next := if opts[0].NilResponderOption? then s else Applied(s, opts[0]);
      ApplyAllSnoc(next, opts[1..], opt);
    }
  }

  /** WithStatusMetadata writes its own status key and no other. */
  lemma StatusMetadataWritesOneKey(s: ResponderState, status: int, meta: StatusMetadata)
    ensures var t := Applied(s, WithStatusMetadata(status, meta));
      && t.statusMetadata.Keys == s.statusMetadata.Keys + {status}
      && t.statusMetadata[status] == ConfiguredMeta(status, meta)
      && (forall k :: k in s.statusMetadata && k != status ==> t.statusMetadata[k] == s.statusMetadata[k])
      && t.log == s.log
  {
  }

  /** A nil logger option changes nothing: the logger stays set. */
  lemma {:induction false} LoggerNeverCleared(s: ResponderState, opts: seq<ResponderOption>)
    requires s.log.Some?
    ensures ApplyAll(s, opts).log.Some?
    ensures (forall i :: 0 <= i < |opts| ==> !opts[i].WithLogger? || opts[i].logger.None?) ==> ApplyAll(s, opts).log == s.log
    decreases |opts|
  {
    if |opts| > 0 {
      var next := if opts[0].NilResponderOption? then s else Applied(s, opts[0]);
      LoggerNeverCleared(next, opts[1..]);
      assert forall i :: 1 <= i < |opts| ==> opts[i] == opts[1..][i - 1];
    }
  }

  /** The Responder record. */
  class Responder {
    var log: Option<Logger>
    var statusMetadata: map<int, StatusMeta>
    var errorClassifier: Option<Classifier>

    function Value(): ResponderState
      reads this
    {
      ResponderState(log, statusMetadata, errorClassifier)
    }

    /** NewResponder(opts...): the default logger and status table, then
        each non-nil option in order. */
    constructor (opts: seq<ResponderOption>)
      ensures Value() == ApplyAll(DefaultResponderState, opts)
    {
      log := Some(DefaultLogger);
      statusMetadata := DefaultStatusMetadata();
      errorClassifier := None;
      new;
      var i := 0;
      while i < |opts|
        invariant 0 <= i <= |opts|
        invariant Value() == ApplyAll(DefaultResponderState, opts[..i])
      {
        ApplyAllSnoc(DefaultResponderState, opts[..i], opts[i]);
        assert opts[..i + 1] == opts[..i] + [opts[i]];
        if !opts[i].NilResponderOption? {
          Apply(opts[i]);
        }
        i := i + 1;
      }
      assert opts[..|opts|] == opts;
    }

    method Apply(opt: ResponderOption)
      requires !opt.NilResponderOption?
      modifies this
      ensures Value() == Applied(old(Value()), opt)
    {
      match opt
      case WithLogger(l) =>
        if l.Some? {
          log := l;
        }
      case WithErrorClassifier(c) => errorClassifier := c;
      case WithStatusMetadata(status, meta) =>
        var level := meta.logLevel;
        if level == 0 {
          level := LevelError;
        }
        var title := meta.title;
        if title == "" {
          title := StatusText(status);
        }
        var msg := meta.logMsg;
        if msg == "" {
          msg := title;
        }
        statusMetadata := statusMetadata[status := StatusMeta(meta.typeURI, title, level, msg)];
    }
  }

  /** logger(): the record's logger, or the default one for a nil receiver
      or a nil log field. */
  function LoggerOf(r: Responder?): (l: Logger)
    reads r
    ensures r != null && r.log.Some? ==> l == r.log.value
    ensures r == null || r.log.None? ==> l == DefaultLogger
  {
    if r == null || r.log.None? then DefaultLogger else r.log.value
  }

  /** classifyError: (0, false) without a classifier, else its verdict. */
  function ClassifyError(s: ResponderState, err: Error): (r: (int, bool))
    ensures s.errorClassifier.None? ==> r == (0, false)
    ensures s.errorClassifier.Some? ==> r == s.errorClassifier.value(err)
  {
    if s.errorClassifier.None? then (0, false) else s.errorClassifier.value(err)
  }
}
