/** The UTC timestamp that names each stored object: `strftime("%Y%m%dT%H%M%SZ")`,
    the basic format of ISO 8601:2004 section 4.3.2 with the `Z` UTC designator,
    together with a parser that inverts it. */
module Timestamp {
  import opened Wrappers

  /** A UTC date-time with the fields Python's `datetime` keeps (no leap seconds). */
  datatype DateTime = DateTime(year: int, month: int, day: int, hour: int, minute: int, second: int)

  predicate IsLeapYear(y: int) {
    y % 4 == 0 && (y % 100 != 0 || y % 400 == 0)
  }

  function DaysInMonth(y: int, m: int): int
    requires 1 <= m <= 12
  {
    if m == 2 then (if IsLeapYear(y) then 29 else 28)
    else if m == 4 || m == 6 || m == 9 || m == 11 then 30
    else 31
  }

  /** The values Python's `datetime` accepts (years 1 to 9999, proleptic Gregorian). */
  predicate IsValid(t: DateTime) {
    1 <= t.year <= 9999 && 1 <= t.month <= 12 && 1 <= t.day <= DaysInMonth(t.year, t.month) &&
    0 <= t.hour < 24 && 0 <= t.minute < 60 && 0 <= t.second < 60
  }

  /** The date-times for which `%Y` writes four digits on every platform. */
  predicate IsFormattable(t: DateTime) {
    IsValid(t) && 1000 <= t.year
  }

  predicate IsDigit(c: char) {
    '0' <= c <= '9'
  }

  predicate AllDigits(s: string) {
    forall i :: 0 <= i < |s| ==> IsDigit(s[i])
  }

  function DigitValue(c: char): (n: int)
    requires IsDigit(c)
    ensures 0 <= n < 10
  {
    c as int - '0' as int
  }

  function Digit(n: int): (c: char)
    requires 0 <= n < 10
    ensures IsDigit(c) && DigitValue(c) == n
  {
    ('0' as int + n) as char
  }

  /** A field written as two zero-padded decimal digits (`%m %d %H %M %S`). */
  function Pad2(n: int): (s: string)
    requires 0 <= n < 100
    ensures |s| == 2 && AllDigits(s)
  {
    [Digit(n / 10), Digit(n % 10)]
  }

  /** The year written as four zero-padded decimal digits (`%Y`). */
  function Pad4(n: int): (s: string)
    requires 0 <= n < 10000
    ensures |s| == 4 && AllDigits(s)
  {
    Pad2(n / 100) + Pad2(n % 100)
  }

  function Value2(s: string): (n: int)
    requires |s| == 2 && AllDigits(s)
    ensures 0 <= n < 100
  {
    10 * DigitValue(s[0]) + DigitValue(s[1])
  }

  function Value4(s: string): (n: int)
    requires |s| == 4 && AllDigits(s)
    ensures 0 <= n < 10000
  {
    100 * Value2(s[..2]) + Value2(s[2..])
  }

  /** The layout `YYYYMMDDTHHMMSSZ`: sixteen characters, `T` at index 8,
      `Z` at index 15 and a decimal digit everywhere else. */
  predicate IsBasicShape(s: string) {
    |s| == 16 && s[8] == 'T' && s[15] == 'Z' &&
    forall i :: 0 <= i < 16 && i != 8 && i != 15 ==> IsDigit(s[i])
  }

  /** `t.strftime("%Y%m%dT%H%M%SZ")`. */
  function Format(t: DateTime): (s: string)
    requires IsFormattable(t)
    ensures IsBasicShape(s)
  {
    Pad4(t.year) + Pad2(t.month) + Pad2(t.day) + "T" +
    Pad2(t.hour) + Pad2(t.minute) + Pad2(t.second) + "Z"
  }

  /** Reads a timestamp back: the partner of Format. */
  function Parse(s: string): (r: Option<DateTime>)
    ensures r.Some? ==> IsFormattable(r.value) && IsBasicShape(s)
  {
    if !IsBasicShape(s) then None
    else
      var t := DateTime(Value4(s[0..4]), Value2(s[4..6]), Value2(s[6..8]),
                        Value2(s[9..11]), Value2(s[11..13]), Value2(s[13..15]));
      if IsFormattable(t) then Some(t) else None
  }

  lemma Pad2RoundTrip(n: int)
    requires 0 <= n < 100
    ensures Value2(Pad2(n)) == n
  {
  }

  lemma {:induction false} Value2RoundTrip(s: string)
    requires |s| == 2 && AllDigits(s)
    ensures Pad2(Value2(s)) == s
  {
    var a, b := DigitValue(s[0]), DigitValue(s[1]);
    assert (10 * a + b) / 10 == a && (10 * a + b) % 10 == b;
    assert Digit(a) == s[0] && Digit(b) == s[1];
  }

  lemma {:induction false} Pad4RoundTrip(n: int)
    requires 0 <= n < 10000
    ensures Value4(Pad4(n)) == n
  {
    var s := Pad4(n);
    assert s[..2] == Pad2(n / 100) && s[2..] == Pad2(n % 100);
    Pad2RoundTrip(n / 100);
    Pad2RoundTrip(n % 100);
  }

  lemma {:induction false} Value4RoundTrip(s: string)
    requires |s| == 4 && AllDigits(s)
    ensures Pad4(Value4(s)) == s
  {
    var hi, lo := Value2(s[..2]), Value2(s[2..]);
    assert (100 * hi + lo) / 100 == hi && (100 * hi + lo) % 100 == lo;
    Value2RoundTrip(s[..2]);
    Value2RoundTrip(s[2..]);
    assert s == s[..2] + s[2..];
  }

  /** Parsing a formatted timestamp gives back the date-time. */
  lemma {:induction false} ParseFormat(t: DateTime)
    requires IsFormattable(t)
    ensures Parse(Format(t)) == Some(t)
  {
    var s := Format(t);
    assert s[0..4] == Pad4(t.year);
    assert s[4..6] == Pad2(t.month) && s[6..8] == Pad2(t.day);
    assert s[9..11] == Pad2(t.hour) && s[11..13] == Pad2(t.minute) && s[13..15] == Pad2(t.second);
    Pad4RoundTrip(t.year);
    Pad2RoundTrip(t.month);
    Pad2RoundTrip(t.day);
    Pad2RoundTrip(t.hour);
    Pad2RoundTrip(t.minute);
    Pad2RoundTrip(t.second);
  }

  /** Every string Parse accepts is exactly the formatting of what it returns. */
  lemma {:induction false} FormatParse(s: string, t: DateTime)
    requires Parse(s) == Some(t)
    ensures Format(t) == s
  {
    Value4RoundTrip(s[0..4]);
    Value2RoundTrip(s[4..6]);
    Value2RoundTrip(s[6..8]);
    Value2RoundTrip(s[9..11]);
    Value2RoundTrip(s[11..13]);
    Value2RoundTrip(s[13..15]);
    assert s == s[0..4] + s[4..6] + s[6..8] + [s[8]] + s[9..11] + s[11..13] + s[13..15] + [s[15]];
  }

  /** Two distinct date-times never share a timestamp (to the second). */
  lemma FormatInjective(t1: DateTime, t2: DateTime)
    requires IsFormattable(t1) && IsFormattable(t2)
    requires Format(t1) == Format(t2)
    ensures t1 == t2
  {
    ParseFormat(t1);
    ParseFormat(t2);
  }

  /** The instant 2023-11-10 12:00:00 UTC is written `20231110T120000Z`. */
  lemma FormatExample()
    ensures Format(DateTime(2023, 11, 10, 12, 0, 0)) == "20231110T120000Z"
  {
  }
}
