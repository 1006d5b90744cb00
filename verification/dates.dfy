/**
 * Calendar dates (time.go and the parts of the timex library it uses).
 *
 * A date is a day number: day 0 is 0001-01-01 of the proleptic Gregorian
 * calendar, which is also the zero `timex.Date` that `IsZero` recognises. Day
 * arithmetic (`AddDays`, `Sub`) is integer arithmetic; the year/month/day view
 * is recovered with `CivilOf`, and timex's `Add(years, months, days)` is
 * modelled by the same normalisation Go's `time.Date` performs (a month
 * overflow carries into the year, a day overflow rolls into the next months).
 */
module Dates {
  import opened Wrappers
  import opened Text

  type Date = int

  /** The zero `timex.Date`, reported by `IsZero`. */
  const ZeroDate: Date := 0

  datatype Civil = Civil(year: int, month: int, day: int)

  predicate IsLeap(y: int) {
    y % 4 == 0 && (y % 100 != 0 || y % 400 == 0)
  }

  function DaysInYear(y: int): int {
    if IsLeap(y) then 366 else 365
  }

  function DaysInMonth(y: int, m: int): (n: int)
    requires 1 <= m <= 12
    ensures 28 <= n <= 31
  {
    if m == 2 then (if IsLeap(y) then 29 else 28)
    else if m == 4 || m == 6 || m == 9 || m == 11 then 30
    else 31
  }

  predicate ValidCivil(c: Civil) {
    1 <= c.month <= 12 && 1 <= c.day <= DaysInMonth(c.year, c.month)
  }

  /** Days from 0001-01-01 to January 1st of year y. */
  function DaysBeforeYear(y: int): int {
    var p := y - 1;
    365 * p + p / 4 - p / 100 + p / 400
  }

  /** Days from January 1st to the first day of month m (m = 13 is the next year). */
  function DaysBeforeMonth(y: int, m: int): int
    requires 1 <= m <= 13
  {
    [0, 31, 59, 90, 120, 151, 181, 212, 243, 273, 304, 334, 365][m - 1]
    + (if IsLeap(y) && m > 2 then 1 else 0)
  }

  function DayOf(c: Civil): Date
    requires 1 <= c.month <= 12
  {
    DaysBeforeYear(c.year) + DaysBeforeMonth(c.year, c.month) + c.day - 1
  }

  /** Each leap-year term of DaysBeforeYear steps by one exactly at its multiples. */
  lemma QuotientStep4(y: int)
    ensures y / 4 - (y - 1) / 4 == if y % 4 == 0 then 1 else 0
  {
  }

  lemma QuotientStep100(y: int)
    ensures y / 100 - (y - 1) / 100 == if y % 100 == 0 then 1 else 0
  {
  }

  lemma QuotientStep400(y: int)
    ensures y / 400 - (y - 1) / 400 == if y % 400 == 0 then 1 else 0
  {
  }

  lemma NextYear(y: int)
    ensures DaysBeforeYear(y + 1) == DaysBeforeYear(y) + DaysInYear(y)
  {
    QuotientStep4(y);
    QuotientStep100(y);
    QuotientStep400(y);
  }

  lemma MonthStep(y: int, m: int)
    requires 1 <= m <= 12
    ensures DaysBeforeMonth(y, m + 1) == DaysBeforeMonth(y, m) + DaysInMonth(y, m)
  {
  }

  lemma {:induction false} DaysBeforeYearMonotone(a: int, b: int)
    requires a <= b
    ensures DaysBeforeYear(a) <= DaysBeforeYear(b)
    decreases b - a
  {
    if a < b {
      NextYear(b - 1);
      DaysBeforeYearMonotone(a, b - 1);
    }
  }

  lemma {:induction false} DaysBeforeMonthMonotone(y: int, a: int, b: int)
    requires 1 <= a <= b <= 13
    ensures DaysBeforeMonth(y, a) <= DaysBeforeMonth(y, b)
    decreases b - a
  {
    if a < b {
      MonthStep(y, b - 1);
      DaysBeforeMonthMonotone(y, a, b - 1);
    }
  }

  function YearUp(n: int, y: int): (r: int)
    requires DaysBeforeYear(y) <= n
    ensures DaysBeforeYear(r) <= n < DaysBeforeYear(r + 1)
    decreases n - DaysBeforeYear(y)
  {
    NextYear(y);
    if n < DaysBeforeYear(y + 1) then y else YearUp(n, y + 1)
  }

  function YearDown(n: int, y: int): (r: int)
    requires n < DaysBeforeYear(y + 1)
    ensures DaysBeforeYear(r) <= n < DaysBeforeYear(r + 1)
    decreases DaysBeforeYear(y + 1) - n
  {
    NextYear(y);
    if DaysBeforeYear(y) <= n then y else YearDown(n, y - 1)
  }

  /** The year that contains day n. */
  function YearOf(n: Date): (y: int)
    ensures DaysBeforeYear(y) <= n < DaysBeforeYear(y + 1)
  {
    if n >= 0 then YearUp(n, 1) else YearDown(n, 0)
  }

  /** The month of year y that contains the off-th day of that year. */
  function MonthOf(y: int, off: int, m: int): (r: int)
    requires 1 <= m <= 12
    requires DaysBeforeMonth(y, m) <= off < DaysInYear(y)
    ensures 1 <= r <= 12
    ensures DaysBeforeMonth(y, r) <= off < DaysBeforeMonth(y, r + 1)
    decreases 12 - m
  {
    if off < DaysBeforeMonth(y, m + 1) then m else MonthOf(y, off, m + 1)
  }

  /** The year/month/day view of a day number. */
  function CivilOf(n: Date): (c: Civil)
    ensures ValidCivil(c) && DayOf(c) == n
  {
    var y := YearOf(n);
    NextYear(y);
    var off := n - DaysBeforeYear(y);
    var m := MonthOf(y, off, 1);
    MonthStep(y, m);
    Civil(y, m, off - DaysBeforeMonth(y, m) + 1)
  }

  lemma YearUnique(n: int, y1: int, y2: int)
    requires DaysBeforeYear(y1) <= n < DaysBeforeYear(y1 + 1)
    requires DaysBeforeYear(y2) <= n < DaysBeforeYear(y2 + 1)
    ensures y1 == y2
  {
    if y1 < y2 {
      DaysBeforeYearMonotone(y1 + 1, y2);
    } else if y2 < y1 {
      DaysBeforeYearMonotone(y2 + 1, y1);
    }
  }

  lemma MonthUnique(y: int, off: int, m1: int, m2: int)
    requires 1 <= m1 <= 12 && 1 <= m2 <= 12
    requires DaysBeforeMonth(y, m1) <= off < DaysBeforeMonth(y, m1 + 1)
    requires DaysBeforeMonth(y, m2) <= off < DaysBeforeMonth(y, m2 + 1)
    ensures m1 == m2
  {
    if m1 < m2 {
      DaysBeforeMonthMonotone(y, m1 + 1, m2);
    } else if m2 < m1 {
      DaysBeforeMonthMonotone(y, m2 + 1, m1);
    }
  }

  /** The day number of a valid date lies inside its year and its month. */
  lemma DayOfBounds(c: Civil)
    requires ValidCivil(c)
    ensures DaysBeforeYear(c.year) <= DayOf(c) < DaysBeforeYear(c.year + 1)
    ensures DaysBeforeMonth(c.year, c.month) <= DayOf(c) - DaysBeforeYear(c.year) < DaysBeforeMonth(c.year, c.month + 1)
  {
    MonthStep(c.year, c.month);
    DaysBeforeMonthMonotone(c.year, c.month + 1, 13);
    NextYear(c.year);
  }

  /** Round trip: every valid calendar date is the view of its own day number,
    * so `CivilOf` and `DayOf` are inverse bijections. */
  lemma CivilOfDayOf(c: Civil)
    requires ValidCivil(c)
    ensures CivilOf(DayOf(c)) == c
  {
    var n := DayOf(c);
    var c' := CivilOf(n);
    DayOfBounds(c);
    DayOfBounds(c');
    YearUnique(n, c.year, c'.year);
    MonthUnique(c.year, n - DaysBeforeYear(c.year), c.month, c'.month);
  }

  /** Go's `time.Date` normalisation of an out-of-range month and day, which
    * timex's `Add` shares: the month carries into the year first, then the
    * day is counted from the first of that month. */
  function Normalize(year: int, month: int, day: int): Date {
    var m0 := month - 1;
    DayOf(Civil(year + m0 / 12, m0 % 12 + 1, day))
  }

  /** `timex.Date.Add(years, months, days)`. */
  function Add(d: Date, years: int, months: int, days: int): Date {
    var c := CivilOf(d);
    Normalize(c.year + years, c.month + months, c.day + days)
  }

  /** `timex.Date.AddDays`. */
  function AddDays(d: Date, days: int): Date {
    d + days
  }

  /** `timex.Date.Sub`: the number of days from `start` to `end`. */
  function Sub(end: Date, start: Date): int {
    end - start
  }

  /** `timex.NewDate`: a date from its parts, or None when they do not name a
    * calendar day. */
  function NewDate(year: int, month: int, day: int): (r: Option<Date>)
    ensures r.Some? <==> ValidCivil(Civil(year, month, day))
    ensures r.Some? ==> CivilOf(r.value) == Civil(year, month, day)
  {
    if ValidCivil(Civil(year, month, day)) then
      CivilOfDayOf(Civil(year, month, day));
      Some(DayOf(Civil(year, month, day)))
    else None
  }

  /** DateBetweenDates (time.go): inclusive at both ends. */
  function DateBetweenDates(dt: Date, start: Date, end: Date): (r: bool)
    ensures start <= end ==> (r <==> start <= dt <= end)
    ensures start > end ==> (r <==> dt == start || dt == end)
  {
    dt == start || dt == end || (dt > start && dt < end)
  }

  /** EndingOfMonth as written (time.go): one month forward, one day back. */
  function EndingOfMonthAsWritten(d: Date): Date {
    Add(d, 0, 1, -1)
  }

  /** The last day of the month that contains `d`, as the function's
    * documentation promises; this is the definition the rest of the model uses. */
  function EndingOfMonth(d: Date): (r: Date)
    ensures CivilOf(r).year == CivilOf(d).year && CivilOf(r).month == CivilOf(d).month
    ensures CivilOf(r).day == DaysInMonth(CivilOf(d).year, CivilOf(d).month)
    ensures d <= r
  {
    var c := CivilOf(d);
    var e := Civil(c.year, c.month, DaysInMonth(c.year, c.month));
    CivilOfDayOf(e);
    DayOf(e)
  }

  /** The code as written agrees with the documented behaviour on the first
    * day of a month, which is the only kind of date its caller passes. */
  lemma EndingOfMonthFirstDay(d: Date)
    requires CivilOf(d).day == 1
    ensures EndingOfMonthAsWritten(d) == EndingOfMonth(d)
  {
    var c := CivilOf(d);
    assert EndingOfMonthAsWritten(d) == Normalize(c.year, c.month + 1, 0);
    NormalizeLastDay(c.year, c.month);
  }

  /** Day 0 of the following month is the last day of month m. */
  lemma NormalizeLastDay(y: int, m: int)
    requires 1 <= m <= 12
    ensures Normalize(y, m + 1, 0) == DayOf(Civil(y, m, DaysInMonth(y, m)))
  {
    MonthStep(y, m);
    if m < 12 {
      assert m / 12 == 0 && m % 12 + 1 == m + 1;
    } else {
      assert m / 12 == 1 && m % 12 + 1 == 1;
      NextYear(y);
    }
  }

  /** ...but not on later days: from 31 January it lands on 1 or 2 March
    * (leap year or not) instead of 31 January. */
  lemma EndingOfMonthAsWrittenCounterexample(y: int)
    ensures EndingOfMonthAsWritten(DayOf(Civil(y, 1, 31))) == DayOf(Civil(y, 3, if IsLeap(y) then 1 else 2))
    ensures EndingOfMonth(DayOf(Civil(y, 1, 31))) == DayOf(Civil(y, 1, 31))
  {
    var jan31 := Civil(y, 1, 31);
    CivilOfDayOf(jan31);
    var d := DayOf(jan31);
    assert CivilOf(d) == jan31;
    assert Add(d, 0, 1, -1) == Normalize(y, 2, 30);
    assert 1 / 12 == 0 && 1 % 12 + 1 == 2;
    assert Normalize(y, 2, 30) == DayOf(Civil(y, 2, 30));
    FebruaryOverflow(y);
    var r := EndingOfMonth(d);
    assert CivilOf(r) == jan31;
  }

  lemma FebruaryOverflow(y: int)
    ensures DayOf(Civil(y, 2, 30)) == DayOf(Civil(y, 3, if IsLeap(y) then 1 else 2))
  {
  }

  /** The 12-entry English month table of time.go. */
  function ShortMonthName(month: int): (s: string)
    requires 1 <= month <= 12
    ensures |s| == 3
  {
    ["Jan", "Feb", "Mar", "Apr", "May", "Jun", "Jul", "Aug", "Sep", "Oct", "Nov", "Dec"][month - 1]
  }

  /** FormatShortDate (time.go): "Feb 15". */
  function FormatShortDate(d: Date): (s: string)
    ensures |s| >= 5 && s[3] == ' '
    ensures s[..3] == ShortMonthName(CivilOf(d).month)
    ensures forall i :: 4 <= i < |s| ==> IsDigit(s[i])
    ensures Atoi(s[4..]) == Some(CivilOf(d).day)
  {
    var c := CivilOf(d);
    var out := ShortMonthName(c.month) + " " + IntToString(c.day);
    assert out[4..] == IntToString(c.day);
    AtoiIntToString(c.day);
    out
  }

  /** The month table has no repeated name. */
  lemma ShortMonthNameInjective(m1: int, m2: int)
    requires 1 <= m1 <= 12 && 1 <= m2 <= 12
    requires ShortMonthName(m1) == ShortMonthName(m2)
    ensures m1 == m2
  {
  }

  /** A short date names its month and day unambiguously: two dates print
    * alike exactly when they fall on the same month and day of the month. */
  lemma FormatShortDateMonthDay(d1: Date, d2: Date)
    ensures FormatShortDate(d1) == FormatShortDate(d2) <==>
              CivilOf(d1).month == CivilOf(d2).month && CivilOf(d1).day == CivilOf(d2).day
  {
    var s1, s2 := FormatShortDate(d1), FormatShortDate(d2);
    if s1 == s2 {
      assert s1[..3] == s2[..3] && s1[4..] == s2[4..];
      ShortMonthNameInjective(CivilOf(d1).month, CivilOf(d2).month);
    }
  }

  /** timex `Format("YYYY-MM-DD")`. */
  function FormatISO(d: Date): string {
    var c := CivilOf(d);
    PadInt(c.year, 4) + "-" + PadNat(c.month, 2) + "-" + PadNat(c.day, 2)
  }

  /** timex `Format("DD/MMM/YYYY")`, used for period descriptions. */
  function FormatDayMonthYear(d: Date): string {
    var c := CivilOf(d);
    PadNat(c.day, 2) + "/" + ShortMonthName(c.month) + "/" + PadInt(c.year, 4)
  }

  /** timex `ParseDate("YYYY-MM-DD", s)`: four year digits, two month digits and
    * two day digits separated by '-', naming a calendar day. */
  function ParseISO(s: string): (r: Option<Date>)
    ensures r.Some? ==> |s| == 10 && s[4] == '-' && s[7] == '-'
                        && AllDigits(s[..4]) && AllDigits(s[5..7]) && AllDigits(s[8..])
                        && CivilOf(r.value) == Civil(DigitsValue(s[..4]), DigitsValue(s[5..7]), DigitsValue(s[8..]))
  {
    if |s| == 10 && s[4] == '-' && s[7] == '-'
       && AllDigits(s[..4]) && AllDigits(s[5..7]) && AllDigits(s[8..]) then
      NewDate(DigitsValue(s[..4]), DigitsValue(s[5..7]), DigitsValue(s[8..]))
    else None
  }

  lemma FormatISOShape(d: Date)
    requires 0 <= CivilOf(d).year <= 9999
    ensures var s, c := FormatISO(d), CivilOf(d);
            |s| == 10 && s[4] == '-' && s[7] == '-'
            && s[..4] == PadNat(c.year, 4) && s[5..7] == PadNat(c.month, 2) && s[8..] == PadNat(c.day, 2)
  {
    var c := CivilOf(d);
    var y, m, dd := PadNat(c.year, 4), PadNat(c.month, 2), PadNat(c.day, 2);
    PadNatLength(c.year, 4);
    PadNatLength(c.month, 2);
    PadNatLength(c.day, 2);
    IsoFieldsShape(y, m, dd);
  }

  lemma IsoFieldsShape(y: string, m: string, d: string)
    requires |y| == 4 && |m| == 2 && |d| == 2
    ensures var s := y + "-" + m + "-" + d;
            |s| == 10 && s[4] == '-' && s[7] == '-' && s[..4] == y && s[5..7] == m && s[8..] == d
  {
  }

  /** Round trip: a date of years 0 to 9999 formats to ten characters and parses back. */
  lemma ParseFormatISO(d: Date)
    requires 0 <= CivilOf(d).year <= 9999
    ensures |FormatISO(d)| == 10
    ensures ParseISO(FormatISO(d)) == Some(d)
  {
    var c := CivilOf(d);
    FormatISOShape(d);
    CivilOfDayOf(c);
  }
}
