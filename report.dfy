/**
 * The error report: one fixed 22-field record for exception- and
 * message-derived reports alike, its JSON wire form, and the outbound HTTP
 * request that carries it.
 */
module Report {
  import opened Php

  /** The 22 fields of an error report (`type` is `errorType` here). */
  datatype Report = Report(
    message: string,
    errorType: string,
    stack: string,
    source: string,
    line: int,
    col: int,
    fingerprint: string,
    url: string,
    userAgent: string,
    browser: string,
    browserVersion: string,
    os: string,
    osVersion: string,
    screenWidth: int,
    screenHeight: int,
    framework: string,
    sdkVersion: string,
    environment: string,
    tags: map<string, string>,
    breadcrumbs: seq<string>,
    timestamp: string,
    deviceType: string)

  /** The client version every report carries (`ErrorReportBuilder::SDK_VERSION`). */
  const SdkVersion := "0.1.0"

  /**
   * The fields that are the same in every report a server-side client
   * builds: no column, no browser, no screen, no breadcrumbs.
   */
  predicate ServerConstants(r: Report)
  {
    && r.col == 0
    && r.browser == "server" && r.browserVersion == ""
    && r.screenWidth == 0 && r.screenHeight == 0
    && r.framework == "laravel" && r.sdkVersion == SdkVersion
    && r.breadcrumbs == []
    && r.deviceType == "server"
  }

  /** A JSON value as the report body uses them. */
  datatype Json =
    | JString(s: string)
    | JInt(i: int)
    | JObject(fields: map<string, string>)
    | JArray(items: seq<string>)

  /** The wire names of the 22 fields, in the order the body lists them. */
  const FieldOrder: seq<string> := [
    "message", "type", "stack", "source", "line", "col",
    "fingerprint", "url", "userAgent", "browser", "browserVersion",
    "os", "osVersion", "screenWidth", "screenHeight", "framework",
    "sdkVersion", "environment", "tags", "breadcrumbs", "timestamp",
    "deviceType"
  ]

  /**
   * The JSON object the report is posted as, as its ordered list of
   * members: exactly the 22 named fields, in the builder's order.
   */
  function ToWire(r: Report): (body: seq<(string, Json)>)
    ensures |body| == |FieldOrder| == 22
    ensures forall i :: 0 <= i < |body| ==> body[i].0 == FieldOrder[i]
  {
    [
      ("message", JString(r.message)),
      ("type", JString(r.errorType)),
      ("stack", JString(r.stack)),
      ("source", JString(r.source)),
      ("line", JInt(r.line)),
      ("col", JInt(r.col)),
      ("fingerprint", JString(r.fingerprint)),
      ("url", JString(r.url)),
      ("userAgent", JString(r.userAgent)),
      ("browser", JString(r.browser)),
      ("browserVersion", JString(r.browserVersion)),
      ("os", JString(r.os)),
      ("osVersion", JString(r.osVersion)),
      ("screenWidth", JInt(r.screenWidth)),
      ("screenHeight", JInt(r.screenHeight)),
      ("framework", JString(r.framework)),
      ("sdkVersion", JString(r.sdkVersion)),
      ("environment", JString(r.environment)),
      ("tags", JObject(r.tags)),
      ("breadcrumbs", JArray(r.breadcrumbs)),
      ("timestamp", JString(r.timestamp)),
      ("deviceType", JString(r.deviceType))
    ]
  }

  /**
   * How a collector reads a posted body back into a report: None unless it
   * has the 22 names in order, each with its kind.
   */
  function FromWire(body: seq<(string, Json)>): Option<Report>
  {
    if && |body| == 22
       && (forall i :: 0 <= i < 22 ==> body[i].0 == FieldOrder[i])
       && body[0].1.JString? && body[1].1.JString? && body[2].1.JString? && body[3].1.JString?
       && body[4].1.JInt? && body[5].1.JInt? && body[6].1.JString? && body[7].1.JString?
       && body[8].1.JString? && body[9].1.JString? && body[10].1.JString? && body[11].1.JString?
       && body[12].1.JString? && body[13].1.JInt? && body[14].1.JInt? && body[15].1.JString?
       && body[16].1.JString? && body[17].1.JString? && body[18].1.JObject? && body[19].1.JArray?
       && body[20].1.JString? && body[21].1.JString?
    then
      Some(Report(
        body[0].1.s, body[1].1.s, body[2].1.s,
        body[3].1.s, body[4].1.i, body[5].1.i,
        body[6].1.s, body[7].1.s, body[8].1.s,
        body[9].1.s, body[10].1.s, body[11].1.s,
        body[12].1.s, body[13].1.i, body[14].1.i,
        body[15].1.s, body[16].1.s, body[17].1.s,
        body[18].1.fields, body[19].1.items, body[20].1.s,
        body[21].1.s))
    else None
  }

  /** The wire form loses nothing: a collector reads back the very report that was sent. */
  lemma WireRoundTrip(r: Report)
    ensures FromWire(ToWire(r)) == Some(r)
  {
  }

  /** An outbound HTTP request (`verb` is the HTTP method). */
  datatype Request = Request(
    verb: string,
    url: string,
    headers: map<string, string>,
    timeoutSeconds: nat,
    body: Report)

  /** How a send ended: a response with a status code, or a thrown error. */
  datatype SendOutcome = Responded(status: int) | Threw(reason: string)

  /** `$response->successful()`: a 2xx status. */
  predicate Successful(o: SendOutcome)
  {
    o.Responded? && 200 <= o.status < 300
  }

  /** The headers both senders attach. */
  function ReportHeaders(token: string): (h: map<string, string>)
    ensures h.Keys == {"X-Analytics-Token", "Content-Type"}
    ensures h["X-Analytics-Token"] == token && h["Content-Type"] == "application/json"
  {
    map["X-Analytics-Token" := token, "Content-Type" := "application/json"]
  }

  /** A JSON POST of a report with the token header. */
  function Post(url: string, token: string, timeoutSeconds: nat, r: Report): Request
  {
    Request("POST", url, ReportHeaders(token), timeoutSeconds, r)
  }
}
