/** Python's `date` and `datetime` values, ordered as Python orders them, with the fixed textual
    forms the library formats and parses (`strftime`/`strptime` with day, month and year fields). */
module Dates {
  import opened Base
  import opened Text

  predicate IsLeapYear(y: int) { y % 4 == 0 && (y % 100 != 0 || y % 400 == 0) }

  function DaysInMonth(y: int, m: int): int
    requires 1 <= m <= 12
  {
    if m == 2 then (if IsLeapYear(y) then 29 else 28)
    else if m == 4 || m == 6 || m == 9 || m == 11 then 30
    else 31
  }

  datatype Ymd = Ymd(year: int, month: int, day: int)

  /** A year/month/day that a Python `date` can hold (years 1 to 9999). */
  predicate ValidYmd(d: Ymd)
  {
    1 <= d.year <= 9999 && 1 <= d.month <= 12 && 1 <= d.day <= DaysInMonth(d.year, d.month)
  }

  /** A `date` value; Python refuses to construct any other. */
  type Date = d: Ymd | ValidYmd(d) witness Ymd(1, 1, 1)

  /** A `datetime` value; only its date part and whether it is midnight matter here. */
  datatype DateTime = DateTime(date: Date, hour: nat, minute: nat, second: nat, microsecond: nat)

  predicate IsMidnight(t: DateTime)
  {
    t.hour == 0 && t.minute == 0 && t.second == 0 && t.microsecond == 0
  }

  /** `datetime(d.year, d.month, d.day)` */
  function AtMidnight(d: Date): (t: DateTime)
    ensures IsMidnight(t) && t.date == d
  {
    DateTime(d, 0, 0, 0, 0)
  }

  /** Python's `<` on dates: by year, then month, then day. */
  predicate DateLess(a: Date, b: Date)
  {
    a.year < b.year
    || (a.year == b.year && a.month < b.month)
    || (a.year == b.year && a.month == b.month && a.day < b.day)
  }

  /** Python's `<` on datetimes: by date, then by time of day. */
  predicate DateTimeLess(a: DateTime, b: DateTime)
  {
    DateLess(a.date, b.date)
    || (a.date == b.date
        && (a.hour, a.minute, a.second, a.microsecond) != (b.hour, b.minute, b.second, b.microsecond)
        && (a.hour < b.hour
            || (a.hour == b.hour && a.minute < b.minute)
            || (a.hour == b.hour && a.minute == b.minute && a.second < b.second)
            || (a.hour == b.hour && a.minute == b.minute && a.second == b.second && a.microsecond < b.microsecond)))
  }

  lemma DateTimeLessIrreflexive(a: DateTime)
    ensures !DateTimeLess(a, a)
  {
  }

  /** Two-digit, zero-padded rendering (`%d`, `%m`). */
  function Two(n: nat): (r: string)
    requires n < 100
    ensures |r| == 2 && AllDigits(r) && DigitsValue(r) == n
  {
    var r := [DigitChar(n / 10), DigitChar(n % 10)];
    assert r[..1] == [DigitChar(n / 10)] && r[..1][..0] == [];
    assert DigitsValue(r[..1]) == n / 10;
    r
  }

  /** `strftime` with day, month and year joined by `sep` (`'%d/%m/%Y'`, `'%d%m%Y'`, ...);
      the year is written without padding, as the platform C library does. */
  function FormatDMY(d: Date, sep: string): (r: string)
    ensures |r| > 4 + 2 * |sep|
    ensures AllDigits(r[..2]) && DigitsValue(r[..2]) == d.day
    ensures IsDigitString(r[4 + 2 * |sep|..]) && DigitsValue(r[4 + 2 * |sep|..]) == d.year
  {
    NatToStringValue(d.year);
    Two(d.day) + sep + Two(d.month) + sep + NatToString(d.year)
  }

  /** `strptime(s, '%d<sep>%m<sep>%Y')` for the two-digit day and month form. */
  function ParseDMY(s: string, sep: char): (r: Result<Date>)
    ensures r.Err? ==> r.error == ValueError
    ensures r.Ok? ==> && |s| == 10 && s[2] == sep && s[5] == sep
                      && AllDigits(s[0..2]) && AllDigits(s[3..5]) && AllDigits(s[6..10])
                      && r.value.day == DigitsValue(s[0..2]) && r.value.month == DigitsValue(s[3..5])
                      && r.value.year == DigitsValue(s[6..10])
  {
    if |s| != 10 || s[2] != sep || s[5] != sep
       || !AllDigits(s[0..2]) || !AllDigits(s[3..5]) || !AllDigits(s[6..10])
    then Err(ValueError)
    else
      var d := Ymd(DigitsValue(s[6..10]), DigitsValue(s[3..5]), DigitsValue(s[0..2]));
      if ValidYmd(d) then Ok(d) else Err(ValueError)
  }

  /** `strptime(s, '%Y-%m-%d')` for the two-digit month and day form. */
  function ParseISO(s: string): (r: Result<Date>)
    ensures r.Err? ==> r.error == ValueError
    ensures r.Ok? ==> && |s| == 10 && s[4] == '-' && s[7] == '-'
                      && AllDigits(s[0..4]) && AllDigits(s[5..7]) && AllDigits(s[8..10])
                      && r.value.year == DigitsValue(s[0..4]) && r.value.month == DigitsValue(s[5..7])
                      && r.value.day == DigitsValue(s[8..10])
  {
    if |s| != 10 || s[4] != '-' || s[7] != '-'
       || !AllDigits(s[0..4]) || !AllDigits(s[5..7]) || !AllDigits(s[8..10])
    then Err(ValueError)
    else
      var d := Ymd(DigitsValue(s[0..4]), DigitsValue(s[5..7]), DigitsValue(s[8..10]));
      if ValidYmd(d) then Ok(d) else Err(ValueError)
  }

  lemma YearIsFourDigits(y: nat)
    requires 1000 <= y <= 9999
    ensures |NatToString(y)| == 4
    ensures AllDigits(NatToString(y)) && DigitsValue(NatToString(y)) == y
  {
    NatToStringLength(y, 4);
    NatToStringLengthAtLeast(y, 3);
    NatToStringValue(y);
  }

  /** A date with a four-digit year read back from its formatted text is the same date. */
  lemma FormatThenParse(d: Date, sep: char)
    requires 1000 <= d.year
    requires !IsDigit(sep)
    ensures ParseDMY(FormatDMY(d, [sep]), sep) == Ok(d)
  {
    YearIsFourDigits(d.year);
    var s := FormatDMY(d, [sep]);
    assert s[0..2] == Two(d.day);
    assert s[3..5] == Two(d.month);
    assert s[6..10] == NatToString(d.year);
  }

  /** Conversely, a text that parses to a date with a four-digit year is that date's formatted text. */
  lemma ParseThenFormat(s: string, sep: char, d: Date)
    requires ParseDMY(s, sep) == Ok(d)
    requires 1000 <= d.year
    ensures FormatDMY(d, [sep]) == s
  {
    YearIsFourDigits(d.year);
    DigitsInjective(Two(d.day), s[0..2]);
    DigitsInjective(Two(d.month), s[3..5]);
    DigitsInjective(NatToString(d.year), s[6..10]);
    assert s == s[0..2] + [sep] + s[3..5] + [sep] + s[6..10];
  }

  lemma ParseISOExample()
    ensures ParseISO("2016-06-26") == Ok(Ymd(2016, 6, 26))
  {
    var s := "2016-06-26";
    assert s[0..4] == "2016";
    assert DigitsValue("2016") == 2016 by {
      assert "2016"[..3] == "201" && "201"[..2] == "20" && "20"[..1] == "2" && "2"[..0] == [];
    }
    assert s[5..7] == "06";
    assert DigitsValue("06") == 6 by {
      assert "06"[..1] == "0" && "0"[..0] == [];
    }
    assert s[8..10] == "26";
    assert DigitsValue("26") == 26 by {
      assert "26"[..1] == "2" && "2"[..0] == [];
    }
  }

  lemma ParseDMYExample()
    ensures ParseDMY("25.06.2016", '.') == Ok(Ymd(2016, 6, 25))
  {
    var s := "25.06.2016";
    assert s[0..2] == "25";
    assert DigitsValue("25") == 25 by {
      assert "25"[..1] == "2" && "2"[..0] == [];
    }
    assert s[3..5] == "06";
    assert DigitsValue("06") == 6 by {
      assert "06"[..1] == "0" && "0"[..0] == [];
    }
    assert s[6..10] == "2016";
    assert DigitsValue("2016") == 2016 by {
      assert "2016"[..3] == "201" && "201"[..2] == "20" && "20"[..1] == "2" && "2"[..0] == [];
    }
  }
}
