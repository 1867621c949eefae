# analytics-laravel error-report pipeline, in Dafny

This project models the error-report pipeline of the `meemalabs/analytics-laravel`
package. A Monolog log record becomes a fixed 22-field error report. That report
is sent as one JSON POST to the analytics collector. The package decides whether
to send and where from its configuration.

Modules, one per file:

- `Php` (php.dfy): the PHP behaviour the code relies on. This covers `empty`/`?:`
  falsiness (`""` and `"0"`), `??`, integer-to-string conversion, zero padding,
  `implode`/`explode` on one character, `rtrim` of one character, and "text after
  the last c". md5 is an injected function `string -> Digest` into 32 lower-case
  hex characters, so nothing is assumed about its internals.
- `Monolog` (monolog.dfy): the ordered `Level` enum with Monolog's numeric values,
  `Level::fromName`, minimum-level gating (`Includes`), and the log record, context
  values and throwable the pipeline reads.
- `Timestamp` (timestamp.dfy): `format('Y-m-d\TH:i:s.v\Z')`, plus a reader for its
  fixed 24-character layout.
- `Report` (report.dfy): the 22-field report, its ordered JSON wire form and its
  reader, and the outbound request with its headers.
- `ErrorReportBuilder` (error_report_builder.dfy): `fromException`, `fromMessage`
  and their private helpers. The process values they consult (framework version,
  OS, PHP version, host name, console flag, argv, request URL) arrive as one
  `Ambient` value.
- `AnalyticsLogHandler` (analytics_log_handler.dfy): the handler as a class.
  - Its token, URL, builder, minimum level and bubble flag are constants.
  - A ghost log `sent` records every POST it attempts.
  - `Handle` is Monolog's inherited gate-then-write; `Write` is the handler's own `write`.
- `AnalyticsTestCommand` (analytics_test_command.dfy): the `analytics:test`
  command's decision logic. This is the ordered configuration checks, the
  collect-URL normalisation, the sample payloads, token masking and the exit code.
- `AnalyticsServiceProvider` (analytics_service_provider.dfy): the closure
  registered for the `analytics` log driver.

The field `type` of a report is named `errorType`, and the HTTP method of a
request is named `verb`, because `type` and `method` are Dafny keywords.

## Model

| member | source | states |
|---|---|---|
| Php.IntToStringRoundTrip | src/ErrorReportBuilder.php:85-90 | PHP's decimal rendering of an int reads back as that int, for negative numbers too |
| Php.PadLeftExact | src/ErrorReportBuilder.php:42 | zero-padding a number below 10^w to width w gives exactly w characters that read back as the number |
| Php.JoinSplit | src/ErrorReportBuilder.php:96 | joining the pieces of an explode on one character gives back the original string |
| Php.SplitJoin | src/ErrorReportBuilder.php:96 | exploding an implode of a non-empty list whose items lack the separator gives back the list |
| Php.RTrim | src/Commands/AnalyticsTestCommand.php:59 | rtrim of one character is the longest prefix not ending in it; everything cut off is that character |
| Php.AfterLast | src/ErrorReportBuilder.php:23 | the result is a suffix free of the character, preceded by it whenever it is not the whole string |
| Php.AfterLastWhole | src/ErrorReportBuilder.php:23 | the text after the last character is the whole string exactly when the character does not occur |
| Monolog.FromName | src/AnalyticsServiceProvider.php:34-36 | `Level::fromName` yields a level only for its lower-case, capitalised or upper-case name |
| Monolog.FromLowerName | src/AnalyticsServiceProvider.php:34-36 | a level's lower-case name reads back as that level |
| Monolog.FromTitleName | src/AnalyticsServiceProvider.php:34-36 | a level's capitalised name reads back as that level |
| Monolog.FromUpperName | src/AnalyticsServiceProvider.php:34-36 | a level's upper-case name reads back as that level |
| Monolog.FromNameOfNames | src/AnalyticsServiceProvider.php:34-36 | every accepted spelling of a level's name reads back as that level |
| Monolog.IncludesIsTotalOrder | src/AnalyticsLogHandler.php:24-27 | the minimum-level gate is a total order on levels: reflexive, antisymmetric, transitive, total |
| Timestamp.FormatIsoMillisLayout | src/ErrorReportBuilder.php:42 | for years 0 to 9999 the timestamp is 24 characters in the layout `dddd-dd-ddTdd:dd:dd.dddZ` and reads back as the record's date, time and truncated milliseconds |
| Report.ToWire | src/ErrorReportBuilder.php:21-44 | a report is sent as exactly 22 members, named in the builder's order |
| Report.WireRoundTrip | src/ErrorReportBuilder.php:21-44 | reading back the sent body gives the very report that was built |
| Report.ReportHeaders | src/AnalyticsLogHandler.php:42-45 | the request carries exactly the token header and the JSON content type |
| ErrorReportBuilder.ShortName | src/ErrorReportBuilder.php:23 | the reported type is the part of the class name after its last backslash and has no backslash itself |
| ErrorReportBuilder.ShortNameOfUnqualified | src/ErrorReportBuilder.php:23 | the type equals the whole class name exactly when the class has no namespace |
| ErrorReportBuilder.ParseFrameOf | src/ErrorReportBuilder.php:85 | the text `file:line` splits back at its last colon into that file and that line, whatever colons the file holds |
| ErrorReportBuilder.FirstFrameRoundTrip | src/ErrorReportBuilder.php:80-91 | the first-frame text determines the file and line it was made from: the throwable's own when the trace is empty, otherwise frame 0's with defaults "" and 0. This holds even when the file contains `:` |
| ErrorReportBuilder.Fingerprint | src/ErrorReportBuilder.php:75-78 | the fingerprint is the 32-character md5 of type, message and frame concatenated |
| ErrorReportBuilder.PreimageDeterminesMessage | src/ErrorReportBuilder.php:75-78 | with type and frame fixed, equal pre-images mean equal messages |
| ErrorReportBuilder.ConsoleUrl | src/ErrorReportBuilder.php:96 | the console URL is `artisan://` followed by the arguments joined with single spaces, and what follows the scheme splits back into the arguments when none of them has a space |
| ErrorReportBuilder.ResolveUrl | src/ErrorReportBuilder.php:93-104 | in console the URL is `artisan://` followed by the argv joined with single spaces (`unknown` without argv), so `artisan://unknown` without argv. It splits back into argv when no argument has a space. Otherwise it is the request URL, or "" when that fails |
| ErrorReportBuilder.HostnameTag | src/ErrorReportBuilder.php:111 | the host name when the lookup gives a non-empty value other than "0", and "unknown" when it fails or gives "" or "0"; never PHP-empty |
| ErrorReportBuilder.BaseTags | src/ErrorReportBuilder.php:108-113 | exactly the keys site_id, php_version, hostname and log_channel, with the builder's site, the PHP version, the record's channel, and the host name or "unknown" |
| ErrorReportBuilder.BuildTags | src/ErrorReportBuilder.php:106-120 | with a context tags array, the keys are the union; context values win, and the other base tags keep their values. Otherwise the result is exactly the base tags |
| ErrorReportBuilder.FromException | src/ErrorReportBuilder.php:17-45 | the server constants, message, short type, trace text, file and line of the throwable. The fingerprint is md5 of the qualified class name, message and first frame |
| ErrorReportBuilder.FromMessage | src/ErrorReportBuilder.php:47-73 | the server constants, the record's message under its level name, and empty stack and source with line 0. The fingerprint uses an empty frame |
| ErrorReportBuilder.EntryPointsAgree | src/ErrorReportBuilder.php:17-73 | both entry points send the same 22 names and agree on every field not taken from the throwable |
| ErrorReportBuilder.ExceptionPreimagesDiffer | src/ErrorReportBuilder.php:28 | two throwables of one class from one frame with different messages have different fingerprint pre-images |
| ErrorReportBuilder.MessagePreimagesDiffer | src/ErrorReportBuilder.php:56 | two records of one level with different messages have different fingerprint pre-images |
| ErrorReportBuilder.FingerprintUsesQualifiedName | src/ErrorReportBuilder.php:23-28 | for a namespaced class, the fingerprint pre-image is not the one the reported short type would give |
| AnalyticsLogHandler.SelectPayload | src/AnalyticsLogHandler.php:36-40 | a Throwable under the context key `exception` gives the exception report. A missing key, null or any other value gives the message report |
| AnalyticsLogHandler.Handler.constructor | src/AnalyticsLogHandler.php:20-31 | the handler keeps the token, builds its builder from site and environment, fixes the URL to the built-in endpoint's collect path, defaults to Error and bubbling, and has sent nothing |
| AnalyticsLogHandler.Handler.RequestFor | src/AnalyticsLogHandler.php:42-47 | the request is a POST to the fixed URL with the token headers, a 5-second timeout and the selected payload |
| AnalyticsLogHandler.Handler.Write | src/AnalyticsLogHandler.php:33-51 | exactly one request is appended for the record, and the method returns normally whatever the send's outcome |
| AnalyticsLogHandler.Handler.Handle | src/AnalyticsLogHandler.php:24-27 | a record below the minimum sends nothing; any other record sends exactly one request. Bubbling stops only for a handled record when bubble is false |
| AnalyticsLogHandler.DefaultHandlerGatesAtError | src/AnalyticsLogHandler.php:24-25 | a default handler drops a Warning and posts an Error once, whatever either send's outcome |
| AnalyticsTestCommand.PreflightMessagesDistinct | src/Commands/AnalyticsTestCommand.php:38-54 | the three configuration problems are reported with three different messages |
| AnalyticsTestCommand.MaskToken | src/Commands/AnalyticsTestCommand.php:32 | an empty token shows as `<not set>`; any other shows as its first eight characters (or fewer) followed by `...` |
| AnalyticsTestCommand.TargetUrl | src/Commands/AnalyticsTestCommand.php:59 | the URL is a prefix of the endpoint that does not end in `/`, followed by `/errors/collect`; everything cut off the endpoint is `/` |
| AnalyticsTestCommand.TrailingSlashesIgnored | src/Commands/AnalyticsTestCommand.php:59 | any number of trailing slashes on the endpoint leads to the same URL |
| AnalyticsTestCommand.TrailingSlashExample | src/Commands/AnalyticsTestCommand.php:59 | `https://x.test/` and `https://x.test` both lead to `https://x.test/errors/collect` |
| AnalyticsTestCommand.RTrimIdempotent | src/Commands/AnalyticsTestCommand.php:59 | trimming the trailing slashes twice trims nothing more |
| AnalyticsTestCommand.SampleType | src/Commands/AnalyticsTestCommand.php:100-161 | `warning` gives Warning, `error` gives Error, and any other kind gives RuntimeException |
| AnalyticsTestCommand.SampleTags | src/Commands/AnalyticsTestCommand.php:120-126 | a sample carries exactly five tags: the configured site, the PHP version, the host name or "unknown", log_channel `analytics` and sample `true` |
| AnalyticsTestCommand.BuildExceptionPayload | src/Commands/AnalyticsTestCommand.php:165-203 | the exception sample has the custom message or its default, type RuntimeException, and the trace text, file and throw line of the caught exception. Its fingerprint hashes type, message and `file:line` |
| AnalyticsTestCommand.BuildPayload | src/Commands/AnalyticsTestCommand.php:96-203 | the fields every sample shares (server constants, the command's console URL, framework version, OS, the sample tags, the current time), plus the type of the kind. The message is the custom one or the kind's default. Warning and error have no stack and hash type and message-or-word. The exception sample hashes its own file and throw line |
| AnalyticsTestCommand.SampleFingerprintText | src/Commands/AnalyticsTestCommand.php:108-138 | without a custom message, a warning or error sample hashes a word other than its displayed message; with one, it hashes what the builder's message convention would |
| AnalyticsTestCommand.Run | src/Commands/AnalyticsTestCommand.php:18-94 | disabled, then empty token, then empty site id each fail before any request. Otherwise one POST with a 10-second timeout goes to the normalised URL. The command succeeds exactly when the answer is 2xx, and otherwise reports the status or the error |
| AnalyticsServiceProvider.LevelName | src/AnalyticsServiceProvider.php:34-36 | the channel's level wins, then the package level, then `error` |
| AnalyticsServiceProvider.CreateDriver | src/AnalyticsServiceProvider.php:26-47 | the null logger exactly when disabled or the token is empty; a rejected level exactly when enabled with a token and the level name is not accepted; the `analytics` logger exactly when enabled with a token and the name is accepted. That logger `analytics` has a handler with the configured token, site (default ""), environment (default production) and the named level |
| AnalyticsServiceProvider.CreateDriverAsWritten | src/AnalyticsServiceProvider.php:26-47 | the closure as written never yields a logger: it agrees with the intended one on the null logger and a rejected level, and raises on the undeclared `endpoint` parameter wherever the intended one builds the handler |
| AnalyticsServiceProvider.AsWrittenRejectsDefaultSetup | src/AnalyticsServiceProvider.php:38-44 | with a token, a site id and all else defaulted, the closure as written raises while the intended one returns the `analytics` logger gating at Error |
| AnalyticsServiceProvider.EndpointIgnored | src/AnalyticsServiceProvider.php:38-44 | the configured endpoint has no effect on the driver |
| AnalyticsServiceProvider.ChannelLevelWins | src/AnalyticsServiceProvider.php:34-36 | a channel level in any accepted spelling becomes the handler's minimum |
| AnalyticsServiceProvider.DefaultLevelIsError | src/AnalyticsServiceProvider.php:34-36 | with no level set anywhere, the handler gates at Error |
| AnalyticsServiceProvider.Instantiate | src/AnalyticsServiceProvider.php:38-44 | the handler built from the driver's arguments gates at the given level, bubbles, and has sent nothing |

## Source discrepancies

These are modelled as the code is written.

- The handler's constructor takes no endpoint (src/AnalyticsLogHandler.php:20-26). Its URL is always the built-in endpoint followed by `/errors/collect` (src/AnalyticsLogHandler.php:29).
  - So an endpoint with a trailing slash is never normalised by the handler. Only the test command trims slashes (src/Commands/AnalyticsTestCommand.php:59).
  - The provider passes a named `endpoint:` argument that the constructor does not declare (src/AnalyticsServiceProvider.php:40). PHP raises an Error for an unknown named parameter, so as written the driver never returns a logger once the null-logger check and the level lookup are passed. `CreateDriverAsWritten` models that; `CreateDriver` follows the evident intent, building the handler from the other arguments with the endpoint having no effect (`EndpointIgnored`). See "## Findings".
  - The package configuration has no `endpoint` key at all (config/analytics.php).
- The test command's default endpoint names `AnalyticsLogHandler::DEFAULT_ENDPOINT` (src/Commands/AnalyticsTestCommand.php:22). No such constant exists; only `ENDPOINT` does. PHP evaluates that default argument before calling `config`, so as written every run of the command raises "Undefined constant" at line 22, before the configuration table and the checks. `Run` models the command as if line 22 succeeded: the endpoint is one of its inputs.
- An exception report's type is the short class name (src/ErrorReportBuilder.php:23), but its fingerprint hashes the fully-qualified name (src/ErrorReportBuilder.php:28). `FingerprintUsesQualifiedName` shows the two pre-images differ for every namespaced class.
- The exception sample of the test command hashes the throwable's own file and line (src/Commands/AnalyticsTestCommand.php:179). The builder hashes trace frame 0 instead.
- Without a custom message, a warning or error sample hashes a fixed word and not the message it displays (`SampleFingerprintText`).
- `buildPayload` takes a builder that it never uses (src/Commands/AnalyticsTestCommand.php:96). The model does not take one.

## Findings

| source | as written | input that shows it | evidently intended | confidence | as-written member | corrected member |
|---|---|---|---|---|---|---|
| src/AnalyticsServiceProvider.php:38-44 | the handler is constructed with a named `endpoint:` argument its constructor does not declare, which PHP rejects with an Error | `analytics.token` = "ak_test", `analytics.site_id` = "site", nothing else set | the `analytics` logger with a handler for the configured token, site and environment, gating at Error | not executed | AnalyticsServiceProvider.CreateDriverAsWritten | AnalyticsServiceProvider.CreateDriver |

`AsWrittenRejectsDefaultSetup` exhibits the input above for both members.

## Left out

- `AnalyticsTestCommand.MaskToken`: PHP strings are bytes and `substr($token, 0, 8)` counts bytes, while strings here are sequences of characters. A token with multi-byte characters is masked differently, so the model is exact only for single-byte tokens.
- `AnalyticsTestCommand.Run`: as written the command raises at src/Commands/AnalyticsTestCommand.php:22 before any check (see "## Source discrepancies"). That failure is not modelled; the endpoint is an input instead.

- The HTTP transport. A send is a `Request` value; how it ended (a status or a thrown error) is a parameter. Response bodies are not modelled.
- Console output (`info`, `error`, `table`, `line`). Only which problem is reported and the masked token are modelled.
- Laravel wiring: `register`, `mergeConfigFrom`, `publishes`, the `Log::extend` registration and `config`/`env` resolution. Configuration values arrive already resolved, with a missing key as `None`.
- `AnalyticsServiceProvider.CreateDriver`: `analytics.enabled` is a boolean. A string from the environment such as `"0"` is not modelled.
- Process lookups (`app()->version()`, `PHP_VERSION`, `PHP_OS_FAMILY`, `php_uname`, `gethostname`, `$_SERVER['argv']`, `runningInConsole`, `request()->fullUrl()`, `now()`). These are parameters.
- md5 internals and collision resistance. Fingerprint distinctness is proved on pre-images only.
- `getTraceAsString` formatting (an opaque string) and the mechanics of `ReflectionClass`.
- `ErrorReportBuilder.ResolveUrl`: the URL is stated for every argv, but splitting it back into the arguments is stated only for arguments without spaces, because `implode` cannot be undone otherwise.
- `Timestamp.FormatIsoMillisLayout`: the fixed layout is stated for the years 0 to 9999 only. Other years are formatted (a leading `-`, or more digits) but have no layout lemma.
- Calendar validity and time zones. The timestamp formats the given components as they are.
- `ErrorReportBuilder.BuildTags`: PHP's `array_merge` renumbers integer keys. Tags are string-keyed maps here, so that is not modelled.
- Monolog beyond level gating: processors, formatters, handler stacks, and what a stopped bubble does to other handlers.
- `AnalyticsLogHandler.Handler.Handle`: `bubble` is modelled only as the value `handle` returns.
