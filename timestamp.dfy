/**
 * The report timestamp: a record's date and time rendered with PHP's
 * `format('Y-m-d\TH:i:s.v\Z')` — a year of at least four digits (with a
 * minus sign before the year 1), two-digit month, day, hour, minute and
 * second, three-digit milliseconds, and a literal `Z`.
 */
module Timestamp {
  import opened Php
  import opened Monolog

  /** PHP's `Y`: at least four digits, with a leading `-` for negative years. */
  function YearText(year: int): string
  {
    if year < 0 then "-" + PadLeft(-year, 4) else PadLeft(year, 4)
  }

  /** `$datetime->format('Y-m-d\TH:i:s.v\Z')`; `v` is the microseconds truncated to milliseconds. */
  function FormatIsoMillis(dt: DateTime): string
  {
    YearText(dt.year) + "-" + PadLeft(dt.month, 2) + "-" + PadLeft(dt.day, 2)
    + "T" + PadLeft(dt.hour, 2) + ":" + PadLeft(dt.minute, 2) + ":" + PadLeft(dt.second, 2)
    + "." + PadLeft(dt.microsecond / 1000, 3) + "Z"
  }

  /** The component ranges a PHP DateTime always keeps. */
  predicate ValidComponents(dt: DateTime)
  {
    && 1 <= dt.month <= 12 && 1 <= dt.day <= 31
    && dt.hour < 24 && dt.minute < 60 && dt.second < 60
    && dt.microsecond < 1000000
  }

  /** The layout `^\d{4}-\d{2}-\d{2}T\d{2}:\d{2}:\d{2}\.\d{3}Z$`. */
  predicate MatchesIsoMillis(s: string)
  {
    && |s| == 24
    && AllDigits(s[0..4]) && s[4] == '-'
    && AllDigits(s[5..7]) && s[7] == '-'
    && AllDigits(s[8..10]) && s[10] == 'T'
    && AllDigits(s[11..13]) && s[13] == ':'
    && AllDigits(s[14..16]) && s[16] == ':'
    && AllDigits(s[17..19]) && s[19] == '.'
    && AllDigits(s[20..23]) && s[23] == 'Z'
  }

  /** A timestamp's fields as the receiving side reads them. */
  datatype Stamp = Stamp(
    year: nat, month: nat, day: nat,
    hour: nat, minute: nat, second: nat, millisecond: nat)

  function ParseIsoMillis(s: string): Option<Stamp>
  {
    if MatchesIsoMillis(s) then
      Some(Stamp(ParseDigits(s[0..4]), ParseDigits(s[5..7]), ParseDigits(s[8..10]),
                 ParseDigits(s[11..13]), ParseDigits(s[14..16]), ParseDigits(s[17..19]),
                 ParseDigits(s[20..23])))
    else None
  }

  /**
   * For the years 0 to 9999 the timestamp has the fixed 24-character layout
   * and reads back as the record's components, milliseconds truncated.
   */
  lemma FormatIsoMillisLayout(dt: DateTime)
    requires ValidComponents(dt) && 0 <= dt.year <= 9999
    ensures |FormatIsoMillis(dt)| == 24
    ensures MatchesIsoMillis(FormatIsoMillis(dt))
    ensures ParseIsoMillis(FormatIsoMillis(dt)) ==
      Some(Stamp(dt.year, dt.month, dt.day, dt.hour, dt.minute, dt.second, dt.microsecond / 1000))
  {
    assert Pow10(2) == 100 && Pow10(3) == 1000 && Pow10(4) == 10000;
    var y := PadLeft(dt.year, 4);
    var mo := PadLeft(dt.month, 2);
    var d := PadLeft(dt.day, 2);
    var h := PadLeft(dt.hour, 2);
    var mi := PadLeft(dt.minute, 2);
    var se := PadLeft(dt.second, 2);
    var ms := PadLeft(dt.microsecond / 1000, 3);
    PadLeftExact(dt.year, 4);
    PadLeftExact(dt.month, 2);
    PadLeftExact(dt.day, 2);
    PadLeftExact(dt.hour, 2);
    PadLeftExact(dt.minute, 2);
    PadLeftExact(dt.second, 2);
    PadLeftExact(dt.microsecond / 1000, 3);
    Assemble(y, mo, d, h, mi, se, ms);
  }

  /** The seven digit groups sit at fixed offsets of the assembled text. */
  lemma Assemble(y: string, mo: string, d: string, h: string, mi: string, se: string, ms: string)
    requires |y| == 4 && |mo| == 2 && |d| == 2 && |h| == 2 && |mi| == 2 && |se| == 2 && |ms| == 3
    ensures var s := y + "-" + mo + "-" + d + "T" + h + ":" + mi + ":" + se + "." + ms + "Z";
      && |s| == 24
      && s[0..4] == y && s[4] == '-' && s[5..7] == mo && s[7] == '-' && s[8..10] == d
      && s[10] == 'T' && s[11..13] == h && s[13] == ':' && s[14..16] == mi && s[16] == ':'
      && s[17..19] == se && s[19] == '.' && s[20..23] == ms && s[23] == 'Z'
  {
    var date := y + "-" + mo + "-" + d;
    var time := h + ":" + mi + ":" + se;
    var s := y + "-" + mo + "-" + d + "T" + h + ":" + mi + ":" + se + "." + ms + "Z";
    assert s == date + "T" + time + "." + ms + "Z";
    assert date[0..4] == y && date[5..7] == mo && date[8..10] == d;
    assert time[0..2] == h && time[3..5] == mi && time[6..8] == se;
  }
}
