/**
 * AnalyticsLogHandler: a Monolog processing handler that turns every record
 * at or above its minimum level into exactly one JSON POST of an error
 * report, and swallows whatever the send does.
 *
 * The HTTP call is not modelled; each attempted POST is appended to the
 * ghost log `sent`, and how the call ended is a parameter no result
 * depends on.
 */
module AnalyticsLogHandler {
  import opened Php
  import opened Monolog
  import opened Report
  import opened ErrorReportBuilder

  /** `AnalyticsLogHandler::ENDPOINT`. */
  const Endpoint := "https://analytics.stacks.com"

  const CollectPath := "/errors/collect"

  /** The timeout of the automatic send, in seconds. */
  const TimeoutSeconds: nat := 5

  /** `$record->context['exception'] ?? null`, when that is a Throwable. */
  function ContextThrowable(record: LogRecord): Option<Throwable>
  {
    if "exception" in record.context && record.context["exception"].Thrown?
    then Some(record.context["exception"].throwable)
    else None
  }

  /**
   * The payload `write` posts: built from the context's throwable when
   * there is one, from the record's message and level otherwise (a missing
   * key, null, or any value that is not a Throwable).
   */
  function SelectPayload(b: Builder, record: LogRecord, amb: Ambient, md5: Md5): (r: Report)
    ensures SharedFields(r, b, record, amb)
    ensures match ContextThrowable(record)
      case Some(e) =>
        && r.message == e.message && r.errorType == ShortName(e.className)
        && r.stack == e.traceText && r.source == e.file && r.line == e.line
        && r.fingerprint == md5(Preimage(e.className, e.message, FirstFrame(e)))
      case None =>
        && r.message == record.message && r.errorType == Name(record.level)
        && r.stack == "" && r.source == "" && r.line == 0
        && r.fingerprint == md5(Preimage(Name(record.level), record.message, ""))
  {
    match ContextThrowable(record)
    case Some(e) => FromException(b, e, record, amb, md5)
    case None => FromMessage(b, record, amb, md5)
  }

  class Handler {
    const token: string
    /** The built-in endpoint's collect path; no constructor argument can change it. */
    const url: string := Endpoint + CollectPath
    const builder: Builder
    /** The minimum level Monolog's base handler gates on. */
    const minimum: Level
    const bubble: bool

    /** Every POST this handler has attempted, oldest first. */
    ghost var sent: seq<Request>

    constructor(token: string, siteId: string, environment: string,
                level: Level := Level.Error, bubble: bool := true)
      ensures this.token == token && url == Endpoint + CollectPath
      ensures builder == Builder(siteId, environment)
      ensures minimum == level && this.bubble == bubble
      ensures sent == []
    {
      this.token := token;
      this.minimum := level;
      this.bubble := bubble;
      this.builder := Builder(siteId, environment);
      this.sent := [];
    }

    /** The one request `write` emits for a record. */
    function RequestFor(record: LogRecord, amb: Ambient, md5: Md5): (req: Request)
      ensures req.verb == "POST" && req.url == Endpoint + CollectPath
      ensures req.headers == ReportHeaders(token) && req.timeoutSeconds == 5
      ensures req.body == SelectPayload(builder, record, amb, md5)
    {
      Post(url, token, TimeoutSeconds, SelectPayload(builder, record, amb, md5))
    }

    /**
     * `write`: build the payload, POST it once, and return normally however
     * the POST ends (a response of any status, or a thrown error).
     */
    method Write(record: LogRecord, amb: Ambient, md5: Md5, outcome: SendOutcome)
      modifies this`sent
      ensures sent == old(sent) + [RequestFor(record, amb, md5)]
    {
      var payload := SelectPayload(builder, record, amb, md5);
      sent := sent + [Post(url, token, TimeoutSeconds, payload)];
      match outcome
      case Responded(_) =>
        // the response is discarded, whatever its status
      case Threw(_) =>
        // the error is caught and dropped
    }

    /**
     * Monolog's `handle`: a record below the minimum is ignored; any other is
     * written. The result asks Monolog to stop bubbling only when this
     * handler was created with bubble = false.
     */
    method Handle(record: LogRecord, amb: Ambient, md5: Md5, outcome: SendOutcome) returns (stop: bool)
      modifies this`sent
      ensures Includes(minimum, record.level) ==> sent == old(sent) + [RequestFor(record, amb, md5)]
      ensures !Includes(minimum, record.level) ==> sent == old(sent)
      ensures stop <==> Includes(minimum, record.level) && !bubble
    {
      if !Includes(minimum, record.level) {
        return false;
      }
      Write(record, amb, md5, outcome);
      stop := !bubble;
    }
  }

  /**
   * A handler built with only token, site and environment gates at Error
   * and lets records bubble: a Warning is dropped and an Error is posted
   * once, whether the collector answers 204, 500 or not at all.
   */
  method DefaultHandlerGatesAtError(warning: LogRecord, error: LogRecord, amb: Ambient, md5: Md5,
                                    first: SendOutcome, second: SendOutcome)
    returns (h: Handler)
    requires warning.level == Warning && error.level == Error
    ensures fresh(h) && h.minimum == Error && h.bubble
    ensures h.sent == [h.RequestFor(error, amb, md5)]
  {
    h := new Handler("ak_test", "test-site", "testing");
    var stop := h.Handle(warning, amb, md5, first);
    assert h.sent == [];
    stop := h.Handle(error, amb, md5, second);
    assert !stop;
  }
}
