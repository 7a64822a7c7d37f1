/**
  Calendar dates as the API receives them (Python `date`, years 1 to 9999),
  their chronological order, and the `TO_CHAR(d, 'YYYY-MM')` text the
  month filters compare against.
*/
module Dates {
  import opened Results

  function IsLeapYear(year: int): bool {
    (year % 4 == 0 && year % 100 != 0) || year % 400 == 0
  }

  function DaysInMonth(year: int, month: int): int
    requires 1 <= month <= 12
  {
    if month == 2 then (if IsLeapYear(year) then 29 else 28)
    else if month == 4 || month == 6 || month == 9 || month == 11 then 30
    else 31
  }

  datatype Date = Date(year: int, month: int, day: int) {
    predicate Valid() {
      1 <= year <= 9999 && 1 <= month <= 12 && 1 <= day <= DaysInMonth(year, month)
    }
  }

  /** The dates a Python `date` can hold. */
  type CalendarDate = d: Date | d.Valid() witness Date(1, 1, 1)

  /** A number that orders dates chronologically; the store sorts date columns by it. */
  function Key(d: CalendarDate): int {
    d.year * 10000 + d.month * 100 + d.day
  }

  /** `Key` orders dates by year, then month, then day. */
  lemma KeyIsChronological(d1: CalendarDate, d2: CalendarDate)
    ensures Key(d1) < Key(d2) <==>
      d1.year < d2.year ||
      (d1.year == d2.year && (d1.month < d2.month || (d1.month == d2.month && d1.day < d2.day)))
    ensures Key(d1) == Key(d2) <==> d1 == d2
  {
  }

  function DigitChar(n: int): char
    requires 0 <= n < 10
  {
    (48 + n) as char
  }

  predicate IsDigit(c: char) { '0' <= c <= '9' }

  function DigitValue(c: char): int
    requires IsDigit(c)
  {
    c as int - 48
  }

  /** `TO_CHAR(d, 'YYYY-MM')`: four-digit year, a dash, two-digit month. */
  function YearMonth(d: CalendarDate): (s: string)
    ensures |s| == 7 && s[4] == '-'
    ensures forall i :: 0 <= i < 7 && i != 4 ==> IsDigit(s[i])
  {
    var y1 := d.year / 10;
    var y2 := y1 / 10;
    [DigitChar(y2 / 10), DigitChar(y2 % 10), DigitChar(y1 % 10), DigitChar(d.year % 10),
     '-', DigitChar(d.month / 10), DigitChar(d.month % 10)]
  }

  /** Reads `YYYY-MM` text back into a year and a month; anything else is `None`. */
  function ParseYearMonth(s: string): Option<(int, int)> {
    if |s| == 7 && s[4] == '-' && IsDigit(s[0]) && IsDigit(s[1]) && IsDigit(s[2]) && IsDigit(s[3])
      && IsDigit(s[5]) && IsDigit(s[6])
    then
      Some((DigitValue(s[0]) * 1000 + DigitValue(s[1]) * 100 + DigitValue(s[2]) * 10 + DigitValue(s[3]),
            DigitValue(s[5]) * 10 + DigitValue(s[6])))
    else None
  }

  lemma {:induction false} ParseFormatted(d: CalendarDate)
    ensures ParseYearMonth(YearMonth(d)) == Some((d.year, d.month))
  {
    var y1 := d.year / 10;
    var y2 := y1 / 10;
    assert d.year == y1 * 10 + d.year % 10;
    assert y1 == y2 * 10 + y1 % 10;
    assert y2 == (y2 / 10) * 10 + y2 % 10;
    assert d.month == (d.month / 10) * 10 + d.month % 10;
  }

  lemma {:induction false} FormatParsed(s: string, d: CalendarDate)
    requires ParseYearMonth(s) == Some((d.year, d.month))
    ensures YearMonth(d) == s
  {
    var t := YearMonth(d);
    ParseFormatted(d);
    assert ParseYearMonth(t) == ParseYearMonth(s);
    var a, b, c, e := DigitValue(s[0]), DigitValue(s[1]), DigitValue(s[2]), DigitValue(s[3]);
    var a', b', c', e' := DigitValue(t[0]), DigitValue(t[1]), DigitValue(t[2]), DigitValue(t[3]);
    assert a * 1000 + b * 100 + c * 10 + e == a' * 1000 + b' * 100 + c' * 10 + e';
    assert a == a' && b == b' && c == c' && e == e';
    assert DigitValue(s[5]) == DigitValue(t[5]) && DigitValue(s[6]) == DigitValue(t[6]);
    assert forall i :: 0 <= i < 7 && i != 4 ==> DigitValue(s[i]) == DigitValue(t[i]);
    assert forall i :: 0 <= i < 7 ==> s[i] == t[i];
  }

  /**
    The month filter: `TO_CHAR(d, 'YYYY-MM') = mois` holds exactly when
    `mois` is well-formed `YYYY-MM` text naming the year and month of `d`,
    whatever its day.
  */
  lemma {:induction false} MonthFilterMeaning(d: CalendarDate, mois: string)
    ensures YearMonth(d) == mois <==> ParseYearMonth(mois) == Some((d.year, d.month))
  {
    if YearMonth(d) == mois {
      ParseFormatted(d);
    }
    if ParseYearMonth(mois) == Some((d.year, d.month)) {
      FormatParsed(mois, d);
    }
  }

  /** The filter `"2024-03"` keeps the dates of March 2024 and no others. */
  lemma {:induction false} March2024(d: CalendarDate)
    ensures YearMonth(d) == "2024-03" <==> d.year == 2024 && d.month == 3
  {
    MonthFilterMeaning(d, "2024-03");
    assert ParseYearMonth("2024-03") == Some((2024, 3));
  }
}
