/**
 * The `analytics` log driver the service provider registers: from the
 * package configuration and the channel's own settings it yields either a
 * logger that discards everything, or a logger named "analytics" with one
 * AnalyticsLogHandler.
 */
module AnalyticsServiceProvider {
  import opened Php
  import opened Monolog
  import opened AnalyticsLogHandler

  /**
   * The `analytics.*` keys the driver reads; None is a key that is not set,
   * so that `config(key, default)` yields the default.
   */
  datatype Config = Config(
    enabled: Option<bool>,
    token: Option<string>,
    siteId: Option<string>,
    environment: Option<string>,
    level: Option<string>,
    endpoint: Option<string>)

  /** The arguments the driver passes to the handler's constructor. */
  datatype HandlerArgs = HandlerArgs(token: string, siteId: string, environment: string, level: Level)

  /** What the driver factory returns. */
  datatype Driver =
    | NullLogger
    | Logger(name: string, handler: HandlerArgs)
      /** `Level::fromName` raised: the name is not a level. */
    | LevelRejected(levelName: string)
      /** The handler's constructor raised: it was passed a parameter it does not declare. */
    | UnknownParameter(parameter: string)

  /** The level name in force: the channel's own `level`, else the package's, else "error". */
  function LevelName(cfg: Config, channelLevel: Option<string>): (name: string)
    ensures channelLevel.Some? ==> name == channelLevel.value
    ensures channelLevel.None? ==> name == OrElse(cfg.level, "error")
  {
    OrElse(channelLevel, OrElse(cfg.level, "error"))
  }

  /** The closure given to `Log::extend('analytics', ...)`. */
  function CreateDriver(cfg: Config, channelLevel: Option<string>): (d: Driver)
    ensures d.NullLogger? <==> !OrElse(cfg.enabled, true) || Falsy(OrElse(cfg.token, ""))
    ensures d.LevelRejected? <==>
      && OrElse(cfg.enabled, true) && !Falsy(OrElse(cfg.token, ""))
      && FromName(LevelName(cfg, channelLevel)).None?
    ensures d.LevelRejected? ==> d.levelName == LevelName(cfg, channelLevel)
    ensures d.Logger? <==>
      && OrElse(cfg.enabled, true) && !Falsy(OrElse(cfg.token, ""))
      && FromName(LevelName(cfg, channelLevel)).Some?
    ensures d.Logger? ==>
      && d.name == "analytics"
      && d.handler.token == OrElse(cfg.token, "")
      && d.handler.siteId == OrElse(cfg.siteId, "")
      && d.handler.environment == OrElse(cfg.environment, "production")
      && FromName(LevelName(cfg, channelLevel)) == Some(d.handler.level)
  {
    var token := OrElse(cfg.token, "");
    if !OrElse(cfg.enabled, true) || Falsy(token) then NullLogger
    else
      var name := LevelName(cfg, channelLevel);
      match FromName(name)
      case None => LevelRejected(name)
      case Some(level) =>
        Logger("analytics", HandlerArgs(token, OrElse(cfg.siteId, ""),
                                        OrElse(cfg.environment, "production"), level))
  }

  /**
   * The closure as it is written: the handler is constructed with a named
   * `endpoint:` argument that its constructor does not declare, so past the
   * null-logger check and the level lookup PHP raises instead of returning a
   * logger.
   */
  function CreateDriverAsWritten(cfg: Config, channelLevel: Option<string>): (d: Driver)
    ensures !d.Logger?
    ensures CreateDriver(cfg, channelLevel).NullLogger? ==> d == NullLogger
    ensures CreateDriver(cfg, channelLevel).LevelRejected? ==> d == CreateDriver(cfg, channelLevel)
    ensures CreateDriver(cfg, channelLevel).Logger? ==> d == UnknownParameter("endpoint")
  {
    var token := OrElse(cfg.token, "");
    if !OrElse(cfg.enabled, true) || Falsy(token) then NullLogger
    else
      var name := LevelName(cfg, channelLevel);
      match FromName(name)
      case None => LevelRejected(name)
      case Some(_) => UnknownParameter("endpoint")
  }

  /**
   * A token and a site id, everything else left at its default: the closure
   * as written raises where the intended one returns the analytics logger.
   */
  lemma AsWrittenRejectsDefaultSetup()
    ensures var cfg := Config(None, Some("ak_test"), Some("site"), None, None, None);
      && CreateDriverAsWritten(cfg, None) == UnknownParameter("endpoint")
      && CreateDriver(cfg, None) == Logger("analytics", HandlerArgs("ak_test", "site", "production", Error))
  {
    var cfg := Config(None, Some("ak_test"), Some("site"), None, None, None);
    assert !Falsy("ak_test");
    FromNameOfNames(Error);
  }

  /** The configured endpoint has no effect on the driver. */
  lemma EndpointIgnored(cfg: Config, channelLevel: Option<string>, endpoint: Option<string>)
    ensures CreateDriver(cfg.(endpoint := endpoint), channelLevel) == CreateDriver(cfg, channelLevel)
  {
  }

  /**
   * An enabled driver with a token gates at the level the channel names, in
   * any spelling Monolog accepts, whatever the package default says.
   */
  lemma ChannelLevelWins(cfg: Config, l: Level, spelling: string)
    requires OrElse(cfg.enabled, true) && !Falsy(OrElse(cfg.token, ""))
    requires spelling == LowerName(l) || spelling == Name(l) || spelling == UpperName(l)
    ensures CreateDriver(cfg, Some(spelling)).Logger?
    ensures CreateDriver(cfg, Some(spelling)).handler.level == l
  {
    FromNameOfNames(l);
  }

  /** With no level set anywhere, the handler gates at Error. */
  lemma DefaultLevelIsError(cfg: Config)
    requires OrElse(cfg.enabled, true) && !Falsy(OrElse(cfg.token, ""))
    requires cfg.level.None?
    ensures CreateDriver(cfg, None).Logger?
    ensures CreateDriver(cfg, None).handler.level == Error
  {
    FromNameOfNames(Error);
  }

  /**
   * `new AnalyticsLogHandler(...)` with the driver's arguments: the handler
   * gates at the given level, bubbles, and has sent nothing yet.
   */
  method Instantiate(args: HandlerArgs) returns (h: Handler)
    ensures h.token == args.token && h.builder == ErrorReportBuilder.Builder(args.siteId, args.environment)
    ensures h.minimum == args.level && h.bubble && h.sent == []
  {
    h := new Handler(args.token, args.siteId, args.environment, args.level);
  }
}
