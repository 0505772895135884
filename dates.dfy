/**
 * `datetime.datetime.strptime(dob, '%Y-%m-%d').date()` as used by the patient
 * profile views (accounts/views.py:141, 975). CPython matches the format with
 * a regular expression in which `%Y` is exactly four digits, `%m` is one of
 * `1[0-2]`, `0[1-9]`, `[1-9]` and `%d` is one of `3[01]`, `[12][0-9]`,
 * `0[1-9]`, `[1-9]`, ` [1-9]`; the whole string must be consumed, and the
 * resulting year, month and day must form a real calendar date. Any failure
 * is a ValueError, which the views answer with 400.
 */
module Dates {
  import opened Wrappers
  import opened Text

  datatype Date = Date(year: int, month: int, day: int)

  predicate IsLeapYear(y: int) {
    y % 4 == 0 && (y % 100 != 0 || y % 400 == 0)
  }

  function DaysInMonth(y: int, m: int): int
    requires 1 <= m <= 12
  {
    if m == 2 then (if IsLeapYear(y) then 29 else 28)
    else if m == 4 || m == 6 || m == 9 || m == 11 then 30
    else 31
  }

  /** A date `datetime.date` accepts: years 1 to 9999 and a day that exists in its month. */
  predicate IsValidDate(d: Date) {
    1 <= d.year <= 9999 && 1 <= d.month <= 12 && 1 <= d.day <= DaysInMonth(d.year, d.month)
  }

  function DigitValue(c: char): int
    requires IsDigit(c)
  {
    c as int - '0' as int
  }

  /** `int(s)` for a string of decimal digits. */
  function DecimalValue(s: string): int
    requires IsDigits(s)
  {
    if s == [] then 0 else 10 * DecimalValue(s[..|s| - 1]) + DigitValue(s[|s| - 1])
  }

  /** The text `%Y` matches: four digits. */
  predicate IsYearToken(s: string) {
    |s| == 4 && IsDigits(s)
  }

  /** The text `%m` matches: `1[0-2]`, `0[1-9]` or `[1-9]`. */
  predicate IsMonthToken(s: string) {
    || (|s| == 1 && '1' <= s[0] <= '9')
    || (|s| == 2 && s[0] == '1' && '0' <= s[1] <= '2')
    || (|s| == 2 && s[0] == '0' && '1' <= s[1] <= '9')
  }

  /** The text `%d` matches: `3[01]`, `[12][0-9]`, `0[1-9]`, `[1-9]` or a space and `[1-9]`. */
  predicate IsDayToken(s: string) {
    || (|s| == 1 && '1' <= s[0] <= '9')
    || (|s| == 2 && s[0] == '3' && '0' <= s[1] <= '1')
    || (|s| == 2 && (s[0] == '1' || s[0] == '2') && IsDigit(s[1]))
    || (|s| == 2 && s[0] == '0' && '1' <= s[1] <= '9')
    || (|s| == 2 && s[0] == ' ' && '1' <= s[1] <= '9')
  }

  /** `int(s)` for a day token; `int` skips the leading space of ` [1-9]`. */
  function DayValue(s: string): int
    requires IsDayToken(s)
  {
    if s[0] == ' ' then DigitValue(s[1]) else DecimalValue(s)
  }

  /** The date the three matched fields denote, when it exists in the calendar. */
  function DateOfTokens(y: string, m: string, d: string): (r: Option<Date>)
    ensures r.Some? ==> IsValidDate(r.value)
  {
    if IsYearToken(y) && IsMonthToken(m) && IsDayToken(d) then
      var date := Date(DecimalValue(y), DecimalValue(m), DayValue(d));
      if IsValidDate(date) then Some(date) else None
    else None
  }

  /**
   * `strptime(s, '%Y-%m-%d')`: None where Python raises ValueError. Neither
   * the month nor the day contains a dash, so the second dash fixes where the
   * month ends.
   */
  function ParseIsoDate(s: string): (r: Option<Date>)
    ensures r.Some? ==> IsValidDate(r.value)
    ensures r.Some? ==> 8 <= |s| <= 10 && s[4] == '-'
  {
    if |s| < 8 || s[4] != '-' then None
    else if s[6] == '-' then DateOfTokens(s[..4], s[5..6], s[7..])
    else if s[7] == '-' then DateOfTokens(s[..4], s[5..7], s[8..])
    else None
  }

  function DigitChar(n: int): char
    requires 0 <= n < 10
  {
    ('0' as int + n) as char
  }

  /** `date.isoformat()`: four-digit year, two-digit month and day. */
  function FormatIsoDate(d: Date): (s: string)
    requires IsValidDate(d)
    ensures |s| == 10 && s[4] == '-' && s[7] == '-'
  {
    [DigitChar(d.year / 1000), DigitChar(d.year / 100 % 10), DigitChar(d.year / 10 % 10), DigitChar(d.year % 10)]
    + "-" + [DigitChar(d.month / 10), DigitChar(d.month % 10)]
    + "-" + [DigitChar(d.day / 10), DigitChar(d.day % 10)]
  }

  lemma TwoDigitValue(s: string, n: int)
    requires 0 <= n < 100 && s == [DigitChar(n / 10), DigitChar(n % 10)]
    ensures IsDigits(s) && DecimalValue(s) == n
  {
    assert s[..1] == [DigitChar(n / 10)] && s[..1][..0] == [];
    assert DecimalValue(s[..1]) == n / 10;
    assert DecimalValue(s) == 10 * (n / 10) + n % 10;
  }

  lemma FourDigitValue(s: string, n: int)
    requires 0 <= n < 10000
    requires s == [DigitChar(n / 1000), DigitChar(n / 100 % 10), DigitChar(n / 10 % 10), DigitChar(n % 10)]
    ensures IsDigits(s) && DecimalValue(s) == n
  {
    var h := n / 100;
    assert h / 10 == n / 1000 && h % 10 == n / 100 % 10;
    TwoDigitValue(s[..2], h);
    assert s[..3][..2] == s[..2];
    assert DecimalValue(s[..3]) == 10 * h + n / 10 % 10;
    assert n / 10 == 10 * h + n / 10 % 10;
    assert s[..4][..3] == s[..3] && s[..4] == s;
    assert DecimalValue(s) == 10 * (n / 10) + n % 10;
  }

  /** Parsing the ISO form of a valid date gives that date back. */
  lemma {:induction false} ParseFormatRoundTrip(d: Date)
    requires IsValidDate(d)
    ensures ParseIsoDate(FormatIsoDate(d)) == Some(d)
  {
    var s := FormatIsoDate(d);
    assert s[..4] == [DigitChar(d.year / 1000), DigitChar(d.year / 100 % 10), DigitChar(d.year / 10 % 10), DigitChar(d.year % 10)];
    FourDigitValue(s[..4], d.year);
    assert s[5..7] == [DigitChar(d.month / 10), DigitChar(d.month % 10)];
    TwoDigitValue(s[5..7], d.month);
    assert s[8..] == [DigitChar(d.day / 10), DigitChar(d.day % 10)];
    TwoDigitValue(s[8..], d.day);
    assert IsMonthToken(s[5..7]);
    assert IsDayToken(s[8..]);
  }

  /** Whatever parses is one of the shapes `strptime` accepts, written in ASCII digits. */
  lemma {:induction false} ParsedShape(s: string)
    requires ParseIsoDate(s).Some?
    ensures IsDigits(s[..4])
    ensures (s[6] == '-' && IsMonthToken(s[5..6]) && IsDayToken(s[7..]))
         || (s[7] == '-' && IsMonthToken(s[5..7]) && IsDayToken(s[8..]))
  {
  }

  /** Unpadded months and days, and a space before a one-digit day, are accepted too. */
  lemma ParseExamples()
    ensures ParseIsoDate("2024-02-29") == Some(Date(2024, 2, 29))
    ensures ParseIsoDate("2024-2-9") == Some(Date(2024, 2, 9))
    ensures ParseIsoDate("2024-02- 9") == Some(Date(2024, 2, 9))
    ensures ParseIsoDate("2023-02-29") == None
    ensures ParseIsoDate("0000-01-01") == None
    ensures ParseIsoDate("2024-13-01") == None
    ensures ParseIsoDate("2024-01-011") == None
    ensures ParseIsoDate("24-01-01") == None
  {
    assert DecimalValue("2024") == 2024 by {
      assert "2024"[..3] == "202" && "202"[..2] == "20" && "20"[..1] == "2" && "2"[..0] == "";
    }
    assert DecimalValue("2023") == 2023 by {
      assert "2023"[..3] == "202" && "202"[..2] == "20" && "20"[..1] == "2" && "2"[..0] == "";
    }
    assert DecimalValue("0000") == 0 by {
      assert "0000"[..3] == "000" && "000"[..2] == "00" && "00"[..1] == "0" && "0"[..0] == "";
    }
    assert DecimalValue("02") == 2 by { assert "02"[..1] == "0" && "0"[..0] == ""; }
    assert DecimalValue("29") == 29 by { assert "29"[..1] == "2" && "2"[..0] == ""; }
    assert DecimalValue("2") == 2 by { assert "2"[..0] == ""; }
    assert DecimalValue("9") == 9 by { assert "9"[..0] == ""; }
    assert "2024-02-29"[..4] == "2024" && "2024-02-29"[5..7] == "02" && "2024-02-29"[8..] == "29";
    assert "2024-2-9"[..4] == "2024" && "2024-2-9"[5..6] == "2" && "2024-2-9"[7..] == "9";
    assert "2024-02- 9"[..4] == "2024" && "2024-02- 9"[5..7] == "02" && "2024-02- 9"[8..] == " 9";
    assert "2023-02-29"[..4] == "2023" && "2023-02-29"[5..7] == "02" && "2023-02-29"[8..] == "29";
    assert "0000-01-01"[..4] == "0000";
    assert "2024-13-01"[5..7] == "13";
    assert "2024-01-011"[8..] == "011";
  }
}
