/**
 * The `analytics:test` console command, decision logic only: the ordered
 * configuration checks, the collect-URL normalisation, the sample payload
 * for each `--type`, the masked token, and the exit code as a function of
 * how the one send ended. Console output is not modelled beyond which
 * problem is reported.
 */
module AnalyticsTestCommand {
  import opened Php
  import opened Monolog
  import opened Timestamp
  import opened Report
  import opened ErrorReportBuilder
  import AnalyticsLogHandler

  /** The `analytics.*` configuration values the command reads. */
  datatype Config = Config(
    token: string,
    siteId: string,
    endpoint: string,
    environment: string,
    enabled: bool)

  /** Symfony's `Command::SUCCESS` (0) and `Command::FAILURE` (1). */
  datatype ExitCode = Success | Failure

  /** What the command reports when it fails, each with its own message. */
  datatype Problem =
    | Disabled
    | NoToken
    | NoSiteId
    | HttpStatus(status: int)
    | SendFailed(reason: string)

  function ProblemMessage(p: Problem): string
  {
    match p
    case Disabled => "Analytics is disabled. Set ANALYTICS_ENABLED=true in your .env"
    case NoToken => "No API token configured. Set ANALYTICS_TOKEN in your .env"
    case NoSiteId => "No site ID configured. Set ANALYTICS_SITE_ID in your .env"
    case HttpStatus(s) => "Server returned HTTP " + IntToString(s)
    case SendFailed(m) => "Failed to send: " + m
  }

  /** The three configuration problems are reported with three different messages. */
  lemma PreflightMessagesDistinct()
    ensures ProblemMessage(Disabled) != ProblemMessage(NoToken)
    ensures ProblemMessage(Disabled) != ProblemMessage(NoSiteId)
    ensures ProblemMessage(NoToken) != ProblemMessage(NoSiteId)
  {
    var disabled, noToken, noSiteId := ProblemMessage(Disabled), ProblemMessage(NoToken), ProblemMessage(NoSiteId);
    assert |disabled| == 62 && |noToken| == |noSiteId| == 57;
    assert noToken[43] == 'N' && noSiteId[43] == 'D';
  }

  // ---------------------------------------------------------------------
  // Configuration table

  /** The token as the configuration table shows it: its first eight characters and "...". */
  function MaskToken(token: string): (shown: string)
    ensures Falsy(token) ==> shown == "<not set>"
    ensures !Falsy(token) ==>
      && |shown| == (if |token| < 8 then |token| else 8) + 3
      && shown[..|shown| - 3] == token[..|shown| - 3]
      && shown[|shown| - 3..] == "..."
  {
    if Falsy(token) then "<not set>"
    else (if |token| < 8 then token else token[..8]) + "..."
  }

  // ---------------------------------------------------------------------
  // Collect URL

  /**
   * `rtrim($endpoint, '/') . '/errors/collect'`: the endpoint without its
   * trailing slashes, then the collect path.
   */
  function TargetUrl(endpoint: string): (url: string)
    ensures |url| >= |AnalyticsLogHandler.CollectPath| && url[|url| - |AnalyticsLogHandler.CollectPath|..] == AnalyticsLogHandler.CollectPath
    ensures var base := url[..|url| - |AnalyticsLogHandler.CollectPath|];
      && |base| <= |endpoint| && base == endpoint[..|base|]
      && (|base| == 0 || base[|base| - 1] != '/')
      && (forall i :: |base| <= i < |endpoint| ==> endpoint[i] == '/')
  {
    var base := RTrim(endpoint, '/');
    assert (base + AnalyticsLogHandler.CollectPath)[..|base|] == base;
    base + AnalyticsLogHandler.CollectPath
  }

  /** Trimming twice trims nothing more. */
  lemma RTrimIdempotent(s: string)
    ensures RTrim(RTrim(s, '/'), '/') == RTrim(s, '/')
  {
  }

  function Slashes(k: nat): (s: string)
    ensures |s| == k && forall i :: 0 <= i < k ==> s[i] == '/'
  {
    seq(k, _ => '/')
  }

  /** Any number of trailing slashes on the endpoint leads to the same URL. */
  lemma {:induction false} TrailingSlashesIgnored(endpoint: string, k: nat)
    ensures TargetUrl(endpoint + Slashes(k)) == TargetUrl(endpoint)
  {
    if k > 0 {
      var s := endpoint + Slashes(k);
      assert s[|s| - 1] == '/';
      assert s[..|s| - 1] == endpoint + Slashes(k - 1);
      TrailingSlashesIgnored(endpoint, k - 1);
    } else {
      assert endpoint + Slashes(k) == endpoint;
    }
  }

  /** An endpoint written with and without its trailing slash: one URL. */
  lemma TrailingSlashExample()
    ensures TargetUrl("https://x.test/") == TargetUrl("https://x.test") == "https://x.test/errors/collect"
  {
    assert "https://x.test/" == "https://x.test" + Slashes(1);
    TrailingSlashesIgnored("https://x.test", 1);
  }

  // ---------------------------------------------------------------------
  // Sample payloads

  /**
   * What the sample payload reads besides the configuration: the process
   * values of the builder, `now()`, and the file and trace text of the
   * RuntimeException the command throws and catches.
   */
  datatype SampleEnv = SampleEnv(amb: Ambient, now: DateTime, file: string, traceText: string)

  /** The line of the command's `throw new \RuntimeException(...)`. */
  const SampleThrowLine := 170

  const SampleUrl := "artisan://analytics:test"

  /** The `--type` names a sample kind; anything else means an exception sample. */
  function SampleType(kind: string): (t: string)
    ensures kind == "warning" ==> t == "Warning"
    ensures kind == "error" ==> t == "Error"
    ensures kind != "warning" && kind != "error" ==> t == "RuntimeException"
  {
    if kind == "warning" then "Warning"
    else if kind == "error" then "Error"
    else "RuntimeException"
  }

  /** The message of the exception sample when no `--message` is given. */
  const ExceptionMessage := "Sample RuntimeException from analytics:test command"

  function DefaultMessage(kind: string): string
  {
    if kind == "warning" then "This is a sample warning from analytics:test"
    else if kind == "error" then "This is a sample error from analytics:test"
    else ExceptionMessage
  }

  /** The text hashed in place of the message when no `--message` is given. */
  function DefaultFingerprintText(kind: string): string
  {
    if kind == "warning" then "sample-warning" else "sample-error"
  }

  /** The five tags every sample carries. */
  function SampleTags(cfg: Config, amb: Ambient): (t: map<string, string>)
    ensures t.Keys == {"site_id", "php_version", "hostname", "log_channel", "sample"}
    ensures t["site_id"] == cfg.siteId && t["php_version"] == amb.phpVersion
    ensures t["hostname"] == (if amb.hostname.Some? && !Falsy(amb.hostname.value) then amb.hostname.value else "unknown")
    ensures t["log_channel"] == "analytics" && t["sample"] == "true"
  {
    map["site_id" := cfg.siteId, "php_version" := amb.phpVersion,
        "hostname" := HostnameTag(amb.hostname), "log_channel" := "analytics", "sample" := "true"]
  }

  /** The fields every sample shares, whatever its kind. */
  predicate SampleFields(r: Report, cfg: Config, env: SampleEnv)
  {
    && ServerConstants(r)
    && r.url == SampleUrl && r.environment == cfg.environment
    && r.userAgent == "Laravel/" + env.amb.laravelVersion
    && r.os == env.amb.osFamily && r.osVersion == env.amb.osRelease
    && r.tags == SampleTags(cfg, env.amb)
    && r.timestamp == FormatIsoMillis(env.now)
  }

  function SampleReport(cfg: Config, env: SampleEnv, message: string, kind: string,
                        stack: string, source: string, line: int, fingerprint: string): (r: Report)
    ensures SampleFields(r, cfg, env)
    ensures r.message == message && r.errorType == kind && r.stack == stack
    ensures r.source == source && r.line == line && r.fingerprint == fingerprint
  {
    Report(
      message, kind, stack, source, line, 0, fingerprint,
      SampleUrl, "Laravel/" + env.amb.laravelVersion, "server", "",
      env.amb.osFamily, env.amb.osRelease, 0, 0, "laravel", SdkVersion, cfg.environment,
      SampleTags(cfg, env.amb), [], FormatIsoMillis(env.now), "server")
  }

  /** `buildExceptionPayload`: the caught RuntimeException's fields, fingerprinted on its own file and line. */
  function BuildExceptionPayload(custom: Option<string>, cfg: Config, env: SampleEnv, md5: Md5): (r: Report)
    ensures SampleFields(r, cfg, env)
    ensures r.message == OrElse(custom, ExceptionMessage) && r.errorType == "RuntimeException"
    ensures r.stack == env.traceText && r.source == env.file && r.line == SampleThrowLine
    ensures r.fingerprint == md5(Preimage("RuntimeException", r.message, env.file + ":" + IntToString(SampleThrowLine)))
  {
    var message := OrElse(custom, ExceptionMessage);
    var preimage := "RuntimeException" + message + env.file + ":" + IntToString(SampleThrowLine);
    assert preimage == Preimage("RuntimeException", message, env.file + ":" + IntToString(SampleThrowLine));
    SampleReport(cfg, env, message, "RuntimeException", env.traceText, env.file, SampleThrowLine, md5(preimage))
  }

  /** `buildPayload`: the sample for a `--type`, with the custom message when one is given. */
  function BuildPayload(kind: string, custom: Option<string>, cfg: Config, env: SampleEnv, md5: Md5): (r: Report)
    ensures SampleFields(r, cfg, env) && |r.fingerprint| == 32
    ensures r.errorType == SampleType(kind)
    ensures r.message == OrElse(custom, DefaultMessage(kind))
    ensures kind == "warning" || kind == "error" ==>
      && r.stack == "" && r.source == "" && r.line == 0
      && r.fingerprint == md5(SampleType(kind) + OrElse(custom, DefaultFingerprintText(kind)))
    ensures kind != "warning" && kind != "error" ==>
      && r.stack == env.traceText && r.source == env.file && r.line == SampleThrowLine
      && r.fingerprint == md5(Preimage("RuntimeException", r.message, env.file + ":" + IntToString(SampleThrowLine)))
  {
    if kind == "warning" || kind == "error" then
      SampleReport(cfg, env, OrElse(custom, DefaultMessage(kind)), SampleType(kind), "", "", 0,
                   md5(SampleType(kind) + OrElse(custom, DefaultFingerprintText(kind))))
    else
      BuildExceptionPayload(custom, cfg, env, md5)
  }

  /**
   * Without `--message`, a warning or error sample hashes a fixed word,
   * not the message it displays, so its fingerprint is not the one the
   * builder's fromMessage would give; with `--message` it is.
   */
  lemma SampleFingerprintText(kind: string, custom: Option<string>)
    requires kind == "warning" || kind == "error"
    ensures custom.None? ==>
      SampleType(kind) + DefaultFingerprintText(kind) != Preimage(SampleType(kind), DefaultMessage(kind), "")
    ensures custom.Some? ==>
      SampleType(kind) + custom.value == Preimage(SampleType(kind), custom.value, "")
  {
    var t := SampleType(kind);
    if custom.None? {
      assert |t + DefaultFingerprintText(kind)| != |Preimage(t, DefaultMessage(kind), "")|;
    } else {
      assert t + custom.value + "" == t + custom.value;
    }
  }

  // ---------------------------------------------------------------------
  // The command

  /** The timeout of the manual send, in seconds. */
  const SendTimeoutSeconds: nat := 10

  /**
   * `handle`: refuse when disabled, then without a token, then without a
   * site id, each before any request; otherwise post the sample once and
   * succeed exactly when the collector answers 2xx.
   */
  method Run(cfg: Config, kind: string, custom: Option<string>, env: SampleEnv, md5: Md5,
             outcome: SendOutcome)
    returns (exit: ExitCode, problem: Option<Problem>, request: Option<Request>)
    ensures exit == Success <==> cfg.enabled && !Falsy(cfg.token) && !Falsy(cfg.siteId) && Successful(outcome)
    ensures problem.None? <==> exit == Success
    ensures request.Some? <==> cfg.enabled && !Falsy(cfg.token) && !Falsy(cfg.siteId)
    ensures !cfg.enabled ==> problem == Some(Disabled)
    ensures cfg.enabled && Falsy(cfg.token) ==> problem == Some(NoToken)
    ensures cfg.enabled && !Falsy(cfg.token) && Falsy(cfg.siteId) ==> problem == Some(NoSiteId)
    ensures request.Some? ==>
      request.value == Post(TargetUrl(cfg.endpoint), cfg.token, SendTimeoutSeconds,
                            BuildPayload(kind, custom, cfg, env, md5))
    ensures request.Some? && outcome.Responded? && !Successful(outcome) ==>
      problem == Some(HttpStatus(outcome.status))
    ensures request.Some? && outcome.Threw? ==> problem == Some(SendFailed(outcome.reason))
  {
    if !cfg.enabled {
      return Failure, Some(Disabled), None;
    }
    if Falsy(cfg.token) {
      return Failure, Some(NoToken), None;
    }
    if Falsy(cfg.siteId) {
      return Failure, Some(NoSiteId), None;
    }
    var url := TargetUrl(cfg.endpoint);
    var payload := BuildPayload(kind, custom, cfg, env, md5);
    request := Some(Post(url, cfg.token, SendTimeoutSeconds, payload));
    match outcome
    case Responded(status) =>
      if 200 <= status < 300 {
        exit, problem := Success, None;
      } else {
        exit, problem := Failure, Some(HttpStatus(status));
      }
    case Threw(reason) =>
      exit, problem := Failure, Some(SendFailed(reason));
  }
}
