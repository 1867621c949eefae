/**
 * ErrorReportBuilder: the total, deterministic mapping from a log record
 * (with or without a caught throwable) to a 22-field error report.
 * Everything the PHP class reads from the running process is handed in as
 * an `Ambient` value, and `md5` as a function.
 */
module ErrorReportBuilder {
  import opened Php
  import opened Monolog
  import opened Timestamp
  import opened Report

  /** The builder's two constructor arguments; it never changes them. */
  datatype Builder = Builder(siteId: string, environment: string)

  /**
   * What the builder reads from the process: `app()->version()`,
   * `PHP_OS_FAMILY`, `php_uname('r')`, `PHP_VERSION`, `gethostname()` (None
   * for `false`), `runningInConsole()`, `$_SERVER['argv']` (None when unset
   * or null) and `request()->fullUrl()` (None when resolving it throws).
   */
  datatype Ambient = Ambient(
    laravelVersion: string,
    osFamily: string,
    osRelease: string,
    phpVersion: string,
    hostname: Option<string>,
    runningInConsole: bool,
    argv: Option<seq<string>>,
    requestUrl: Option<string>)

  const ConsoleScheme := "artisan://"

  // ---------------------------------------------------------------------
  // Type name, first frame and fingerprint

  /** `ReflectionClass::getShortName`: the class name after its last `\`. */
  function ShortName(className: string): (r: string)
    ensures '\\' !in r
    ensures |r| <= |className| && r == className[|className| - |r|..]
    ensures |r| < |className| ==> className[|className| - |r| - 1] == '\\'
  {
    AfterLast(className, '\\')
  }

  /** The short name is the whole class name exactly for a class outside any namespace. */
  lemma ShortNameOfUnqualified(className: string)
    ensures ShortName(className) == className <==> '\\' !in className
  {
    AfterLastWhole(className, '\\');
  }

  /**
   * `getFirstFrame`: file:line of the first trace frame (missing file "",
   * missing line 0), or of the throwable itself when its trace is empty.
   */
  function FirstFrame(e: Throwable): string
  {
    if |e.trace| == 0 then e.file + ":" + IntToString(e.line)
    else OrElse(e.trace[0].file, "") + ":" + IntToString(OrElse(e.trace[0].line, 0))
  }

  /** The file and line a first-frame identifier was made from. */
  function FrameSite(e: Throwable): (string, int)
  {
    if |e.trace| == 0 then (e.file, e.line)
    else (OrElse(e.trace[0].file, ""), OrElse(e.trace[0].line, 0))
  }

  /** Splits an identifier at its last `:` into file and line; None if the line is not an integer. */
  function ParseFrame(id: string): Option<(string, int)>
  {
    var line := AfterLast(id, ':');
    if |line| == |id| then None
    else
      match ParseInt(line)
      case Some(n) => Some((id[..|id| - |line| - 1], n))
      case None => None
  }

  /** `file:line` splits back into the file and the line, whatever `:` the file holds. */
  lemma ParseFrameOf(file: string, line: int)
    ensures ParseFrame(file + ":" + IntToString(line)) == Some((file, line))
  {
    var text := IntToString(line);
    var id := file + ":" + text;
    assert ':' !in text by {
      var digits := if line < 0 then Digits(-line) else Digits(line);
      assert text == (if line < 0 then "-" + digits else digits);
      assert ':' !in digits by {
        assert forall i :: 0 <= i < |digits| ==> IsDigit(digits[i]);
      }
    }
    assert id == file + [':'] + text;
    AfterLastOfSuffix(file, text, ':');
    IntToStringRoundTrip(line);
  }

  /**
   * The first-frame identifier names its file and line unambiguously, even
   * when the file itself contains `:` (as Windows paths do).
   */
  lemma FirstFrameRoundTrip(e: Throwable)
    ensures ParseFrame(FirstFrame(e)) == Some(FrameSite(e))
  {
    ParseFrameOf(FrameSite(e).0, FrameSite(e).1);
  }

  /** Cutting at the last c of x + [c] + y, where y has no c, gives back y and x. */
  lemma {:induction false} AfterLastOfSuffix(x: string, y: string, c: char)
    requires c !in y
    ensures AfterLast(x + [c] + y, c) == y
    ensures (x + [c] + y)[..|x|] == x
  {
    var s := x + [c] + y;
    if |y| == 0 {
      assert s == x + [c];
    } else {
      var last := y[|y| - 1];
      var y' := y[..|y| - 1];
      assert last in y;
      assert s[|s| - 1] == last;
      assert s[..|s| - 1] == x + [c] + y';
      assert y == y' + [last];
      AfterLastOfSuffix(x, y', c);
    }
  }

  /** The string md5 is applied to: type, message and frame, concatenated. */
  function Preimage(kind: string, message: string, frame: string): string
  {
    kind + message + frame
  }

  /** `fingerprint`: md5 of the pre-image. */
  function Fingerprint(md5: Md5, kind: string, message: string, frame: string): (d: string)
    ensures |d| == 32
  {
    md5(Preimage(kind, message, frame))
  }

  /** With type and frame fixed, the pre-image determines the message. */
  lemma {:induction false} PreimageDeterminesMessage(kind: string, m1: string, m2: string, frame: string)
    requires Preimage(kind, m1, frame) == Preimage(kind, m2, frame)
    ensures m1 == m2
  {
    var p := Preimage(kind, m1, frame);
    assert |m1| == |m2|;
    assert p[|kind|..|kind| + |m1|] == m1;
    assert Preimage(kind, m2, frame)[|kind|..|kind| + |m2|] == m2;
  }

  // ---------------------------------------------------------------------
  // URL and tags

  /** `'artisan://'.implode(' ', $args)`. */
  function ConsoleUrl(args: seq<string>): (url: string)
    ensures |url| >= |ConsoleScheme| && url[..|ConsoleScheme|] == ConsoleScheme
    ensures url[|ConsoleScheme|..] == Join(' ', args)
    ensures (|args| >= 1 && forall i :: 0 <= i < |args| ==> ' ' !in args[i])
            ==> Split(' ', url[|ConsoleScheme|..]) == args
  {
    var url := ConsoleScheme + Join(' ', args);
    assert url[|ConsoleScheme|..] == Join(' ', args);
    if |args| >= 1 && forall i :: 0 <= i < |args| ==> ' ' !in args[i] then
      SplitJoin(' ', args);
      url
    else url
  }

  /** The `getUrl` of the builder: the console command line, or the request URL. */
  function ResolveUrl(amb: Ambient): (url: string)
    ensures amb.runningInConsole ==>
              |url| >= |ConsoleScheme| && url[..|ConsoleScheme|] == ConsoleScheme
    ensures amb.runningInConsole ==>
              |url| >= |ConsoleScheme| && url[|ConsoleScheme|..] == Join(' ', OrElse(amb.argv, ["unknown"]))
    ensures amb.runningInConsole && amb.argv.None? ==> url == ConsoleScheme + "unknown"
    ensures (amb.runningInConsole && amb.argv.Some? && |amb.argv.value| >= 1
             && forall i :: 0 <= i < |amb.argv.value| ==> ' ' !in amb.argv.value[i])
            ==> |url| >= |ConsoleScheme| && Split(' ', url[|ConsoleScheme|..]) == amb.argv.value
    ensures !amb.runningInConsole ==> url == OrElse(amb.requestUrl, "")
  {
    if amb.runningInConsole then
      var args := OrElse(amb.argv, ["unknown"]);
      assert amb.argv.None? ==> Join(' ', args) == "unknown";
      ConsoleUrl(args)
    else OrElse(amb.requestUrl, "")
  }

  /** `gethostname() ?: 'unknown'`. */
  function HostnameTag(hostname: Option<string>): (tag: string)
    ensures hostname.Some? && !Falsy(hostname.value) ==> tag == hostname.value
    ensures hostname.None? || Falsy(hostname.value) ==> tag == "unknown"
    ensures !Falsy(tag)
  {
    if hostname.None? || Falsy(hostname.value) then "unknown" else hostname.value
  }

  /** The four tags every report carries. */
  function BaseTags(b: Builder, amb: Ambient, record: LogRecord): (t: map<string, string>)
    ensures t.Keys == {"site_id", "php_version", "hostname", "log_channel"}
    ensures t["site_id"] == b.siteId && t["php_version"] == amb.phpVersion
    ensures t["log_channel"] == record.channel
    ensures t["hostname"] == (if amb.hostname.Some? && !Falsy(amb.hostname.value) then amb.hostname.value else "unknown")
  {
    map["site_id" := b.siteId, "php_version" := amb.phpVersion,
        "hostname" := HostnameTag(amb.hostname), "log_channel" := record.channel]
  }

  /** `isset($record->context['tags']) && is_array(...)`. */
  predicate HasContextTags(record: LogRecord)
  {
    "tags" in record.context && record.context["tags"].Array?
  }

  /**
   * `buildTags`: the base tags, with the record's `context['tags']` array
   * merged over them when there is one (its entries win on collision).
   */
  function BuildTags(b: Builder, amb: Ambient, record: LogRecord): (t: map<string, string>)
    ensures var base := BaseTags(b, amb, record);
      if HasContextTags(record) then
        var extra := record.context["tags"].entries;
        && t.Keys == base.Keys + extra.Keys
        && (forall k :: k in extra ==> t[k] == extra[k])
        && (forall k :: k in base && k !in extra ==> t[k] == base[k])
      else t == base
  {
    var base := BaseTags(b, amb, record);
    if HasContextTags(record) then base + record.context["tags"].entries else base
  }

  // ---------------------------------------------------------------------
  // The two entry points

  /** The fields a report takes from the builder and the process, whichever entry point made it. */
  predicate SharedFields(r: Report, b: Builder, record: LogRecord, amb: Ambient)
  {
    && ServerConstants(r)
    && r.environment == b.environment
    && r.url == ResolveUrl(amb)
    && r.userAgent == "Laravel/" + amb.laravelVersion
    && r.os == amb.osFamily && r.osVersion == amb.osRelease
    && r.tags == BuildTags(b, amb, record)
    && r.timestamp == FormatIsoMillis(record.datetime)
  }

  function MakeReport(b: Builder, record: LogRecord, amb: Ambient,
                      message: string, kind: string, stack: string, source: string, line: int,
                      fingerprint: string): (r: Report)
    ensures SharedFields(r, b, record, amb)
    ensures r.message == message && r.errorType == kind && r.stack == stack
    ensures r.source == source && r.line == line && r.fingerprint == fingerprint
  {
    Report(
      message, kind, stack, source, line, 0, fingerprint,
      ResolveUrl(amb), "Laravel/" + amb.laravelVersion, "server", "",
      amb.osFamily, amb.osRelease, 0, 0, "laravel", SdkVersion, b.environment,
      BuildTags(b, amb, record), [], FormatIsoMillis(record.datetime), "server")
  }

  /**
   * `fromException`: the throwable's message, short type name, trace text,
   * file and line, fingerprinted on its fully-qualified class name.
   */
  function FromException(b: Builder, e: Throwable, record: LogRecord, amb: Ambient, md5: Md5): (r: Report)
    ensures SharedFields(r, b, record, amb)
    ensures r.message == e.message && r.errorType == ShortName(e.className)
    ensures r.stack == e.traceText && r.source == e.file && r.line == e.line
    ensures r.fingerprint == md5(Preimage(e.className, e.message, FirstFrame(e)))
    ensures |r.fingerprint| == 32
  {
    MakeReport(b, record, amb, e.message, ShortName(e.className), e.traceText, e.file, e.line,
               Fingerprint(md5, e.className, e.message, FirstFrame(e)))
  }

  /**
   * `fromMessage`: the record's message under its level name, with no
   * stack, source or line, fingerprinted with an empty frame.
   */
  function FromMessage(b: Builder, record: LogRecord, amb: Ambient, md5: Md5): (r: Report)
    ensures SharedFields(r, b, record, amb)
    ensures r.message == record.message && r.errorType == Name(record.level)
    ensures r.stack == "" && r.source == "" && r.line == 0
    ensures r.fingerprint == md5(Preimage(Name(record.level), record.message, ""))
    ensures |r.fingerprint| == 32
  {
    MakeReport(b, record, amb, record.message, Name(record.level), "", "", 0,
               Fingerprint(md5, Name(record.level), record.message, ""))
  }

  // ---------------------------------------------------------------------
  // Properties relating the entry points

  /**
   * Both entry points give the same 22 wire names, and agree on every field
   * that does not come from the throwable.
   */
  lemma EntryPointsAgree(b: Builder, e: Throwable, record: LogRecord, amb: Ambient, md5: Md5)
    ensures var x := FromException(b, e, record, amb, md5);
            var m := FromMessage(b, record, amb, md5);
            && (forall i :: 0 <= i < 22 ==> ToWire(x)[i].0 == ToWire(m)[i].0 == FieldOrder[i])
            && x.col == m.col && x.url == m.url && x.userAgent == m.userAgent
            && x.browser == m.browser && x.browserVersion == m.browserVersion
            && x.os == m.os && x.osVersion == m.osVersion
            && x.screenWidth == m.screenWidth && x.screenHeight == m.screenHeight
            && x.framework == m.framework && x.sdkVersion == m.sdkVersion
            && x.environment == m.environment && x.tags == m.tags
            && x.breadcrumbs == m.breadcrumbs && x.timestamp == m.timestamp
            && x.deviceType == m.deviceType
  {
  }

  /** Two throwables of one class thrown from one frame with different messages get different pre-images. */
  lemma ExceptionPreimagesDiffer(e1: Throwable, e2: Throwable)
    requires e1.className == e2.className && FirstFrame(e1) == FirstFrame(e2)
    requires e1.message != e2.message
    ensures Preimage(e1.className, e1.message, FirstFrame(e1))
         != Preimage(e2.className, e2.message, FirstFrame(e2))
  {
    if Preimage(e1.className, e1.message, FirstFrame(e1)) == Preimage(e2.className, e2.message, FirstFrame(e2)) {
      PreimageDeterminesMessage(e1.className, e1.message, e2.message, FirstFrame(e1));
    }
  }

  /** Two records of one level with different messages get different pre-images. */
  lemma MessagePreimagesDiffer(r1: LogRecord, r2: LogRecord)
    requires r1.level == r2.level && r1.message != r2.message
    ensures Preimage(Name(r1.level), r1.message, "") != Preimage(Name(r2.level), r2.message, "")
  {
    if Preimage(Name(r1.level), r1.message, "") == Preimage(Name(r2.level), r2.message, "") {
      PreimageDeterminesMessage(Name(r1.level), r1.message, r2.message, "");
    }
  }

  /**
   * The exception fingerprint is taken over the fully-qualified class name,
   * so it differs from one taken over the reported short type whenever the
   * class is namespaced.
   */
  lemma FingerprintUsesQualifiedName(e: Throwable)
    requires '\\' in e.className
    ensures Preimage(e.className, e.message, FirstFrame(e))
         != Preimage(ShortName(e.className), e.message, FirstFrame(e))
  {
    ShortNameOfUnqualified(e.className);
    var short := ShortName(e.className);
    assert |short| < |e.className|;
  }
}
