/**
 * The PHP built-ins the error-report pipeline leans on, stated on Dafny
 * values: string truthiness (`empty`, `?:`), integer-to-string conversion,
 * zero padding, `implode`/`explode` on one separator, `rtrim` of one
 * character, the "text after the last separator" rule of
 * `ReflectionClass::getShortName`, and the shape of an `md5` digest.
 */
module Php {

  datatype Option<+T> = None | Some(value: T)

  /** `$x ?? $default` on an optional value. */
  function OrElse<T>(o: Option<T>, default: T): T
  {
    match o
    case Some(v) => v
    case None => default
  }

  /** PHP's `empty($s)` and the falsiness `?:` sees for a string: "" and "0". */
  predicate Falsy(s: string)
  {
    s == "" || s == "0"
  }

  // ---------------------------------------------------------------------
  // md5 digests

  predicate IsHexDigit(c: char)
  {
    '0' <= c <= '9' || 'a' <= c <= 'f'
  }

  /** What `md5()` returns: 32 lower-case hexadecimal characters. */
  predicate IsHexDigest(s: string)
  {
    |s| == 32 && forall i :: 0 <= i < |s| ==> IsHexDigit(s[i])
  }

  type Digest = s: string | IsHexDigest(s) witness "00000000000000000000000000000000"

  /** `md5` itself is not modelled: it is passed in as an arbitrary function. */
  type Md5 = string -> Digest

  // ---------------------------------------------------------------------
  // Decimal rendering and parsing

  predicate IsDigit(c: char)
  {
    '0' <= c <= '9'
  }

  predicate AllDigits(s: string)
  {
    forall i :: 0 <= i < |s| ==> IsDigit(s[i])
  }

  function DigitChar(d: nat): (c: char)
    requires d < 10
    ensures IsDigit(c)
  {
    (48 + d) as char
  }

  function DigitValue(c: char): (d: nat)
    requires IsDigit(c)
    ensures d < 10
  {
    c as int - 48
  }

  /** The decimal rendering of a natural number, without leading zeros. */
  function Digits(n: nat): (s: string)
    ensures |s| >= 1 && AllDigits(s)
    ensures s[0] == '0' ==> n == 0
  {
    if n < 10 then [DigitChar(n)] else Digits(n / 10) + [DigitChar(n % 10)]
  }

  /** The value of a string of decimal digits (leading zeros allowed). */
  function ParseDigits(s: string): nat
    requires AllDigits(s)
  {
    if |s| == 0 then 0 else 10 * ParseDigits(s[..|s| - 1]) + DigitValue(s[|s| - 1])
  }

  /** PHP's int-to-string conversion (as `.` concatenation performs it). */
  function IntToString(i: int): (s: string)
    ensures |s| >= 1
    ensures i >= 0 <==> s[0] != '-'
  {
    if i < 0 then "-" + Digits(-i) else Digits(i)
  }

  /** Reads back what IntToString writes; None for anything else. */
  function ParseInt(s: string): Option<int>
  {
    if |s| >= 2 && s[0] == '-' && AllDigits(s[1..]) then Some(0 - ParseDigits(s[1..]))
    else if |s| >= 1 && AllDigits(s) then Some(ParseDigits(s))
    else None
  }

  lemma {:induction false} ParseDigitsOfDigits(n: nat)
    ensures ParseDigits(Digits(n)) == n
  {
    if n >= 10 {
      var s := Digits(n);
      assert s[..|s| - 1] == Digits(n / 10);
      ParseDigitsOfDigits(n / 10);
    }
  }

  /** Reading back an integer rendering gives the integer. */
  lemma IntToStringRoundTrip(i: int)
    ensures ParseInt(IntToString(i)) == Some(i)
  {
    var s := IntToString(i);
    if i < 0 {
      var d := Digits(-i);
      assert s == "-" + d && s[0] == '-' && s[1..] == d;
      ParseDigitsOfDigits(-i);
    } else {
      assert s == Digits(i) && IsDigit(s[0]);
      ParseDigitsOfDigits(i);
    }
  }

  function Pow10(k: nat): (p: nat)
    ensures p >= 1
  {
    if k == 0 then 1 else 10 * Pow10(k - 1)
  }

  function Zeros(k: nat): (s: string)
    ensures |s| == k && AllDigits(s)
  {
    seq(k, _ => '0')
  }

  /** `%0wd`-style padding: at least w digits, zero-filled on the left. */
  function PadLeft(n: nat, w: nat): (s: string)
    ensures AllDigits(s)
  {
    var d := Digits(n);
    if |d| < w then Zeros(w - |d|) + d else d
  }

  lemma {:induction false} DigitsLength(n: nat, k: nat)
    requires k >= 1 && n < Pow10(k)
    ensures |Digits(n)| <= k
  {
    if n >= 10 {
      assert k >= 2;
      assert Pow10(k) == 10 * Pow10(k - 1);
      DigitsLength(n / 10, k - 1);
    }
  }

  lemma {:induction false} ParseLeadingZero(s: string)
    requires AllDigits(s)
    ensures ParseDigits(['0'] + s) == ParseDigits(s)
  {
    if |s| > 0 {
      var t := ['0'] + s;
      assert t[..|t| - 1] == ['0'] + s[..|s| - 1];
      ParseLeadingZero(s[..|s| - 1]);
    }
  }

  lemma {:induction false} ParseLeadingZeros(k: nat, s: string)
    requires AllDigits(s)
    ensures ParseDigits(Zeros(k) + s) == ParseDigits(s)
  {
    if k > 0 {
      var t := Zeros(k - 1) + s;
      assert AllDigits(t);
      assert Zeros(k) + s == ['0'] + t;
      ParseLeadingZero(t);
      ParseLeadingZeros(k - 1, s);
    } else {
      assert Zeros(k) + s == s;
    }
  }

  /** A number below 10^w pads to exactly w digits, which read back as the number. */
  lemma PadLeftExact(n: nat, w: nat)
    requires w >= 1 && n < Pow10(w)
    ensures |PadLeft(n, w)| == w
    ensures ParseDigits(PadLeft(n, w)) == n
  {
    DigitsLength(n, w);
    ParseDigitsOfDigits(n);
    var d := Digits(n);
    if |d| < w {
      ParseLeadingZeros(w - |d|, d);
    }
  }

  // ---------------------------------------------------------------------
  // implode / explode on a single-character separator

  /** `implode(sep, xs)`. */
  function Join(sep: char, xs: seq<string>): string
  {
    if |xs| == 0 then ""
    else if |xs| == 1 then xs[0]
    else xs[0] + [sep] + Join(sep, xs[1..])
  }

  /** `explode(sep, s)`: the pieces between separators, always at least one. */
  function Split(sep: char, s: string): (pieces: seq<string>)
    ensures |pieces| >= 1
  {
    if |s| == 0 then [""]
    else
      var rest := Split(sep, s[1..]);
      if s[0] == sep then [""] + rest
      else [[s[0]] + rest[0]] + rest[1..]
  }

  /** Joining the pieces of a split gives back the string. */
  lemma {:induction false} JoinSplit(sep: char, s: string)
    ensures Join(sep, Split(sep, s)) == s
  {
    if |s| > 0 {
      var rest := Split(sep, s[1..]);
      JoinSplit(sep, s[1..]);
      if s[0] == sep {
        assert ([""] + rest)[1..] == rest;
      } else if |rest| > 1 {
        var pieces := [[s[0]] + rest[0]] + rest[1..];
        assert pieces[1..] == rest[1..];
        assert Join(sep, rest) == rest[0] + [sep] + Join(sep, rest[1..]);
        assert s == [s[0]] + s[1..];
      } else {
        assert s == [s[0]] + s[1..];
      }
    }
  }

  lemma {:induction false} SplitPrefix(sep: char, x: string, t: string)
    requires sep !in x
    ensures Split(sep, x + t) == [x + Split(sep, t)[0]] + Split(sep, t)[1..]
  {
    if |x| > 0 {
      var rest := Split(sep, t);
      assert (x + t)[0] == x[0] && x[0] != sep;
      assert (x + t)[1..] == x[1..] + t;
      SplitPrefix(sep, x[1..], t);
      assert [x[0]] + (x[1..] + rest[0]) == x + rest[0];
    } else {
      var rest := Split(sep, t);
      assert x + t == t && x + rest[0] == rest[0];
      assert rest == [rest[0]] + rest[1..];
    }
  }

  /** Splitting a join of separator-free pieces gives back the pieces. */
  lemma {:induction false} SplitJoin(sep: char, xs: seq<string>)
    requires |xs| >= 1
    requires forall i :: 0 <= i < |xs| ==> sep !in xs[i]
    ensures Split(sep, Join(sep, xs)) == xs
  {
    if |xs| == 1 {
      SplitPrefix(sep, xs[0], "");
      assert xs[0] + "" == xs[0];
    } else {
      var tail := Join(sep, xs[1..]);
      SplitJoin(sep, xs[1..]);
      assert Join(sep, xs) == xs[0] + ([sep] + tail);
      SplitPrefix(sep, xs[0], [sep] + tail);
      assert ([sep] + tail)[0] == sep && ([sep] + tail)[1..] == tail;
      assert Split(sep, [sep] + tail) == [""] + xs[1..];
      assert xs[0] + "" == xs[0];
      assert xs == [xs[0]] + xs[1..];
    }
  }

  // ---------------------------------------------------------------------
  // rtrim and the short-name rule

  /** `rtrim(s, c)`: s with every trailing c removed. */
  function RTrim(s: string, c: char): (r: string)
    ensures |r| <= |s| && r == s[..|r|]
    ensures |r| == 0 || r[|r| - 1] != c
    ensures forall i :: |r| <= i < |s| ==> s[i] == c
  {
    if |s| > 0 && s[|s| - 1] == c then RTrim(s[..|s| - 1], c) else s
  }

  /**
   * The text after the last c in s, or all of s when it has no c: the
   * longest suffix of s that holds no c.
   */
  function AfterLast(s: string, c: char): (r: string)
    ensures |r| <= |s| && r == s[|s| - |r|..]
    ensures c !in r
    ensures |r| < |s| ==> s[|s| - |r| - 1] == c
  {
    if |s| == 0 then ""
    else if s[|s| - 1] == c then ""
    else AfterLast(s[..|s| - 1], c) + [s[|s| - 1]]
  }

  /** The whole string comes back exactly when it has no c. */
  lemma AfterLastWhole(s: string, c: char)
    ensures AfterLast(s, c) == s <==> c !in s
  {
    var r := AfterLast(s, c);
    assert |r| < |s| ==> s[|s| - |r| - 1] in s;
  }
}
