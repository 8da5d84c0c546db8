/**
 * Calendar dates and their `Y-m-d` rendering (PHP's `DateTimeInterface::format('Y-m-d')`),
 * the extended calendar date of section 4.1.2.2 of ISO 8601:2004: four-digit year,
 * two-digit month, two-digit day, separated by hyphens.
 */
module Dates {
  import opened Wrappers
  import opened Decimal

  /** A date without time of day or time zone; only these three parts reach the wire. */
  datatype Date = Date(year: nat, month: nat, day: nat)

  predicate LeapYear(y: nat)
  {
    y % 4 == 0 && (y % 100 != 0 || y % 400 == 0)
  }

  function DaysInMonth(y: nat, m: nat): nat
    requires 1 <= m <= 12
  {
    if m == 2 then (if LeapYear(y) then 29 else 28)
    else if m == 4 || m == 6 || m == 9 || m == 11 then 30
    else 31
  }

  /** A date of the Gregorian calendar, as every `DateTimeInterface` value denotes. */
  predicate ValidDate(d: Date)
  {
    1 <= d.month <= 12 && 1 <= d.day <= DaysInMonth(d.year, d.month)
  }

  /** `Y-m-d`: the year with at least four digits, month and day with two. */
  function FormatYmd(d: Date): string
  {
    Digits(d.year, 4) + "-" + Digits(d.month, 2) + "-" + Digits(d.day, 2)
  }

  /** Reads a ten-character `YYYY-MM-DD` string back; the reference reading of FormatYmd. */
  function ParseYmd(s: string): Option<Date>
  {
    if |s| == 10 && s[4] == '-' && s[7] == '-'
       && AllDigits(s[..4]) && AllDigits(s[5..7]) && AllDigits(s[8..])
    then Some(Date(Value(s[..4]), Value(s[5..7]), Value(s[8..])))
    else None
  }

  // ---------------------------------------------------------------- lemmas

  /**
   * Every valid date of a four-digit year is written as ten characters
   * `YYYY-MM-DD` that read back as the same date, so distinct dates never
   * share a rendering.
   */
  lemma FormatYmdRoundTrip(d: Date)
    requires ValidDate(d) && d.year <= 9999
    ensures |FormatYmd(d)| == 10
    ensures FormatYmd(d)[4] == '-' && FormatYmd(d)[7] == '-'
    ensures ParseYmd(FormatYmd(d)) == Some(d)
  {
    var y, m, dd := Digits(d.year, 4), Digits(d.month, 2), Digits(d.day, 2);
    assert Pow10(4) == 10000 && Pow10(2) == 100;
    DigitsLength(d.year, 4);
    DigitsLength(d.month, 2);
    DigitsLength(d.day, 2);
    DigitsValue(d.year, 4);
    DigitsValue(d.month, 2);
    DigitsValue(d.day, 2);
    var s := FormatYmd(d);
    assert s == y + "-" + m + "-" + dd;
    assert s[..4] == y;
    assert s[5..7] == m;
    assert s[8..] == dd;
  }

  /** Example: 9 March 2025 is written "2025-03-09". */
  lemma FormatYmdExample()
    ensures FormatYmd(Date(2025, 3, 9)) == "2025-03-09"
  {
  }
}
