/**
 * The parts of Monolog the pipeline sees: the ordered severity levels, the
 * log record handed to a handler, the values its context may carry, and the
 * read-only view of a caught throwable.
 */
module Monolog {
  import opened Php

  /** Monolog's Level enum, in increasing severity. */
  datatype Level = Debug | Info | Notice | Warning | Error | Critical | Alert | Emergency

  /** The numeric value Monolog gives each level. */
  function Value(l: Level): (v: int)
    ensures 100 <= v <= 600
  {
    match l
    case Debug => 100
    case Info => 200
    case Notice => 250
    case Warning => 300
    case Error => 400
    case Critical => 500
    case Alert => 550
    case Emergency => 600
  }

  /** `$level->name`: the enum case name. */
  function Name(l: Level): string
  {
    match l
    case Debug => "Debug"
    case Info => "Info"
    case Notice => "Notice"
    case Warning => "Warning"
    case Error => "Error"
    case Critical => "Critical"
    case Alert => "Alert"
    case Emergency => "Emergency"
  }

  function LowerName(l: Level): string
  {
    match l
    case Debug => "debug"
    case Info => "info"
    case Notice => "notice"
    case Warning => "warning"
    case Error => "error"
    case Critical => "critical"
    case Alert => "alert"
    case Emergency => "emergency"
  }

  function UpperName(l: Level): string
  {
    match l
    case Debug => "DEBUG"
    case Info => "INFO"
    case Notice => "NOTICE"
    case Warning => "WARNING"
    case Error => "ERROR"
    case Critical => "CRITICAL"
    case Alert => "ALERT"
    case Emergency => "EMERGENCY"
  }

  /**
   * `Level::fromName`: the lower-case, capitalised and upper-case spelling
   * of each name; None where Monolog raises.
   */
  function FromName(s: string): (r: Option<Level>)
    ensures r.Some? ==> s == LowerName(r.value) || s == Name(r.value) || s == UpperName(r.value)
  {
    if s == "debug" || s == "Debug" || s == "DEBUG" then Some(Debug)
    else if s == "info" || s == "Info" || s == "INFO" then Some(Info)
    else if s == "notice" || s == "Notice" || s == "NOTICE" then Some(Notice)
    else if s == "warning" || s == "Warning" || s == "WARNING" then Some(Warning)
    else if s == "error" || s == "Error" || s == "ERROR" then Some(Error)
    else if s == "critical" || s == "Critical" || s == "CRITICAL" then Some(Critical)
    else if s == "alert" || s == "Alert" || s == "ALERT" then Some(Alert)
    else if s == "emergency" || s == "Emergency" || s == "EMERGENCY" then Some(Emergency)
    else None
  }

  lemma FromLowerName(l: Level)
    ensures FromName(LowerName(l)) == Some(l)
  {
    match l
    case Debug =>
    case Info =>
    case Notice =>
    case Warning =>
    case Error =>
    case Critical =>
    case Alert =>
    case Emergency =>
  }

  lemma FromTitleName(l: Level)
    ensures FromName(Name(l)) == Some(l)
  {
    match l
    case Debug =>
    case Info =>
    case Notice =>
    case Warning =>
    case Error =>
    case Critical =>
    case Alert =>
    case Emergency =>
  }

  lemma FromUpperName(l: Level)
    ensures FromName(UpperName(l)) == Some(l)
  {
    match l
    case Debug =>
    case Info =>
    case Notice =>
    case Warning =>
    case Error =>
    case Critical =>
    case Alert =>
    case Emergency =>
  }

  /** Every spelling of a level's name reads back as that level. */
  lemma FromNameOfNames(l: Level)
    ensures FromName(LowerName(l)) == Some(l)
    ensures FromName(Name(l)) == Some(l)
    ensures FromName(UpperName(l)) == Some(l)
  {
    FromLowerName(l);
    FromTitleName(l);
    FromUpperName(l);
  }

  /**
   * A handler whose minimum is `minimum` handles a record of level `l`
   * (`AbstractHandler::isHandling`).
   */
  predicate Includes(minimum: Level, l: Level)
  {
    Value(l) >= Value(minimum)
  }

  /** Distinct levels have distinct values, so Includes is a total order. */
  lemma IncludesIsTotalOrder(a: Level, b: Level, c: Level)
    ensures Includes(a, a)
    ensures Includes(a, b) && Includes(b, a) ==> a == b
    ensures Includes(a, b) && Includes(b, c) ==> Includes(a, c)
    ensures Includes(a, b) || Includes(b, a)
  {
  }

  /** One frame of `getTrace()`; a frame may lack its file or line. */
  datatype Frame = Frame(file: Option<string>, line: Option<int>)

  /**
   * What the pipeline reads of a caught Throwable: its fully-qualified class
   * name, message, file, line, `getTrace()` and `getTraceAsString()`.
   */
  datatype Throwable = Throwable(
    className: string,
    message: string,
    file: string,
    line: int,
    trace: seq<Frame>,
    traceText: string)

  /** A value stored in a record's context array. */
  datatype ContextValue =
    | Null
    | Scalar(text: string)
    | Array(entries: map<string, string>)
    | Thrown(throwable: Throwable)
    | Object

  /**
   * The date and time of a record as its components (no time zone is
   * applied when it is formatted).
   */
  datatype DateTime = DateTime(
    year: int, month: nat, day: nat,
    hour: nat, minute: nat, second: nat, microsecond: nat)

  /** Monolog's LogRecord, as far as the pipeline reads it. */
  datatype LogRecord = LogRecord(
    datetime: DateTime,
    channel: string,
    level: Level,
    message: string,
    context: map<string, ContextValue>)
}
