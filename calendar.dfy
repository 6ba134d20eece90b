/**
 * The parts of Python's `datetime.date` that the forecasting code relies on:
 * proleptic Gregorian ordinals, `weekday()`, the month and day of a date,
 * `strftime('%A')`, adding a `timedelta` of days, and the day-of-year and
 * ISO-week numbers that pandas' `.dt` accessors report.
 */
module Calendar {
  import opened Common

  /** The ordinal of `date.max`, 9999-12-31. */
  const MaxOrdinal := 3652059

  /** A date, as its ordinal: 0001-01-01 is day 1 (`date.toordinal()`). */
  type Date = d: int | 1 <= d <= MaxOrdinal witness 1

  datatype Ymd = Ymd(year: int, month: int, day: int)

  predicate IsLeap(y: int) {
    y % 4 == 0 && (y % 100 != 0 || y % 400 == 0)
  }

  /** Days in month `m` of a common year. */
  function CommonMonthLength(m: int): int
    requires 1 <= m <= 12
  {
    [31, 28, 31, 30, 31, 30, 31, 31, 30, 31, 30, 31][m - 1]
  }

  /** Days of a common year before month `m` (`_DAYS_BEFORE_MONTH`). */
  function CommonDaysBefore(m: int): int
    requires 1 <= m <= 12
  {
    [0, 31, 59, 90, 120, 151, 181, 212, 243, 273, 304, 334][m - 1]
  }

  function DaysInMonth(y: int, m: int): int
    requires 1 <= m <= 12
  {
    CommonMonthLength(m) + (if m == 2 && IsLeap(y) then 1 else 0)
  }

  function DaysBeforeMonth(y: int, m: int): int
    requires 1 <= m <= 12
  {
    CommonDaysBefore(m) + (if m > 2 && IsLeap(y) then 1 else 0)
  }

  /** Days before January 1 of year `y`; Dafny's `/` floors like Python's `//` here. */
  function DaysBeforeYear(y: int): int {
    var z := y - 1;
    z * 365 + z / 4 - z / 100 + z / 400
  }

  predicate ValidYmd(y: int, m: int, d: int) {
    1 <= y <= 9999 && 1 <= m <= 12 && 1 <= d <= DaysInMonth(y, m)
  }

  /** `date(y, m, d).toordinal()`. */
  function Ordinal(y: int, m: int, d: int): (o: Date)
    requires ValidYmd(y, m, d)
  {
    DaysBeforeYear(y) + DaysBeforeMonth(y, m) + d
  }

  /**
   * Month and day of the zero-based day `e` of a year, as `_ord2ymd` finds
   * them: a first guess of the month from `(e + 50) >> 5`, corrected down by one
   * when that month starts after `e`.
   */
  function MonthAndDay(e: int, leap: bool): (int, int)
    requires 0 <= e < 365
  {
    var guess := (e + 50) / 32;
    if guess < 1 || guess > 12 then (0, 0)  // never: 50 <= e + 50 < 415
    else
      var before := DaysBeforeMonthOf(guess, leap);
      if before > e && guess > 1 then
        var m := guess - 1;
        var before' := before - DaysInMonthOf(m, leap);
        (m, e - before' + 1)
      else
        (guess, e - before + 1)
  }

  /** Day `e` falls in the month `MonthAndDay` gives, and is the day it gives within that month. */
  lemma MonthAndDayIsCalendarDay(e: int, leap: bool)
    requires 0 <= e < 365
    ensures var r := MonthAndDay(e, leap);
            && 1 <= r.0 <= 12 && 1 <= r.1 <= DaysInMonthOf(r.0, leap) <= 31
            && DaysBeforeMonthOf(r.0, leap) + r.1 == e + 1
  {
    var guess := (e + 50) / 32;
    assert 1 <= guess <= 12;
    if guess == 1 { } else if guess == 2 { } else if guess == 3 { } else if guess == 4 { }
    else if guess == 5 { } else if guess == 6 { } else if guess == 7 { } else if guess == 8 { }
    else if guess == 9 { } else if guess == 10 { } else if guess == 11 { } else { }
  }

  /** Days in month `m` of a leap or a common year. */
  function DaysInMonthOf(m: int, leap: bool): int
    requires 1 <= m <= 12
  {
    CommonMonthLength(m) + (if m == 2 && leap then 1 else 0)
  }

  /** Days before month `m` of a leap or a common year. */
  function DaysBeforeMonthOf(m: int, leap: bool): int
    requires 1 <= m <= 12
  {
    CommonDaysBefore(m) + (if m > 2 && leap then 1 else 0)
  }

  /**
   * The date `_ord2ymd` assembles from the number of whole 400-, 100-, 4- and
   * 1-year cycles before it and the zero-based day `e` inside its year. Four
   * whole 1- or 100-year cycles mean the day is December 31 of the year before.
   */
  function FromCycles(n400: int, n100: int, n4: int, n1: int, e: int): (r: Ymd)
    requires 0 <= n400 <= 24 && 0 <= n100 <= 4 && 0 <= n4 <= 24 && 0 <= n1 <= 4 && 0 <= e < 365
    requires n400 == 24 ==> n100 <= 3 && (n100 == 3 && n4 == 24 ==> n1 <= 2)
    ensures 1 <= r.year <= 9999 && 1 <= r.month <= 12 && 1 <= r.day <= 31
  {
    var year := n400 * 400 + 1 + n100 * 100 + n4 * 4 + n1;
    if n1 == 4 || n100 == 4 then
      Ymd(year - 1, 12, 31)
    else
      var leap := n1 == 3 && (n4 != 24 || n100 == 3);
      MonthAndDayIsCalendarDay(e, leap);
      var md := MonthAndDay(e, leap);
      Ymd(year, md.0, md.1)
  }

  /** `date.fromordinal(o)`, following the 400/100/4/1-year cycle decomposition of `_ord2ymd`. */
  function ToYmd(o: Date): (r: Ymd)
    ensures 1 <= r.year <= 9999 && 1 <= r.month <= 12 && 1 <= r.day <= 31
  {
    var n := o - 1;
    CycleBounds(n);
    var n400, a := n / 146097, n % 146097;
    var n100, b := a / 36524, a % 36524;
    var n4, c := b / 1461, b % 1461;
    FromCycles(n400, n100, n4, c / 365, c % 365)
  }

  /** Inside a 400-year cycle, the days before a year add up cycle by cycle. */
  lemma DaysBeforeYearByCycles(y: int, n400: int, n100: int, n4: int, n1: int)
    requires n400 >= 0 && 0 <= n100 <= 3 && 0 <= n4 <= 24 && 0 <= n1 <= 3
    requires y == 400 * n400 + 100 * n100 + 4 * n4 + n1 + 1
    ensures DaysBeforeYear(y) == 146097 * n400 + 36524 * n100 + 1461 * n4 + 365 * n1
  {
    var z := y - 1;
    assert z / 4 == 100 * n400 + 25 * n100 + n4;
    assert z / 100 == 4 * n400 + n100;
    assert z / 400 == n400;
  }

  /** The leap years of a 400-year cycle: the last of each 4-year cycle, except the last of a 100-year cycle not ending the 400. */
  lemma LeapByCycles(y: int, n400: int, n100: int, n4: int, n1: int)
    requires n400 >= 0 && 0 <= n100 <= 3 && 0 <= n4 <= 24 && 0 <= n1 <= 3
    requires y == 400 * n400 + 100 * n100 + 4 * n4 + n1 + 1
    ensures IsLeap(y) <==> n1 == 3 && (n4 != 24 || n100 == 3)
  {
    if n1 != 3 {
      assert y % 4 == n1 + 1 by { assert y == 4 * (100 * n400 + 25 * n100 + n4) + (n1 + 1); }
    } else if n4 != 24 {
      assert y % 4 == 0 by { assert y == 4 * (100 * n400 + 25 * n100 + n4 + 1); }
      assert y % 100 == 4 * n4 + 4 by { assert y == 100 * (4 * n400 + n100) + (4 * n4 + 4); }
    } else {
      assert y == 400 * n400 + 100 * (n100 + 1);
      assert y % 4 == 0 by { assert y == 4 * (100 * n400 + 25 * (n100 + 1)); }
      assert y % 100 == 0 by { assert y == 100 * (4 * n400 + n100 + 1); }
      if n100 == 3 {
        assert y % 400 == 0 by { assert y == 400 * (n400 + 1); }
      } else {
        assert y % 400 == 100 * (n100 + 1);
      }
    }
  }

  /** A day inside a year: the year of the cycles, and the month and day `MonthAndDay` finds. */
  lemma DayInsideYear(y: int, n400: int, n100: int, n4: int, n1: int, e: int)
    requires 0 <= n400 <= 24 && 0 <= n100 <= 3 && 0 <= n4 <= 24 && 0 <= n1 <= 3 && 0 <= e < 365
    requires n400 == 24 ==> n100 <= 3 && (n100 == 3 && n4 == 24 ==> n1 <= 2)
    requires y == 400 * n400 + 1 + 100 * n100 + 4 * n4 + n1
    ensures var md := MonthAndDay(e, n1 == 3 && (n4 != 24 || n100 == 3));
            && ValidYmd(y, md.0, md.1)
            && DaysBeforeYear(y) + DaysBeforeMonth(y, md.0) + md.1 == 146097 * n400 + 36524 * n100 + 1461 * n4 + 365 * n1 + e + 1
  {
    DaysBeforeYearByCycles(y, n400, n100, n4, n1);
    LeapByCycles(y, n400, n100, n4, n1);
    MonthAndDayIsCalendarDay(e, n1 == 3 && (n4 != 24 || n100 == 3));
  }

  /** The last day of the fourth year of a 4-year cycle is December 31 of a leap year. */
  lemma LastDayOfFourYears(y: int, n400: int, n100: int, n4: int)
    requires 0 <= n400 <= 24 && 0 <= n100 <= 3 && 0 <= n4 <= 23
    requires y == 400 * n400 + 100 * n100 + 4 * n4 + 4
    ensures ValidYmd(y, 12, 31)
    ensures DaysBeforeYear(y) + DaysBeforeMonth(y, 12) + 31 == 146097 * n400 + 36524 * n100 + 1461 * n4 + 1460 + 1
  {
    DaysBeforeYearByCycles(y, n400, n100, n4, 3);
    LeapByCycles(y, n400, n100, n4, 3);
  }

  /** The last day of a 400-year cycle is December 31 of a leap year. */
  lemma LastDayOfFourCenturies(y: int, n400: int)
    requires 0 <= n400 <= 23 && y == 400 * n400 + 400
    ensures ValidYmd(y, 12, 31)
    ensures DaysBeforeYear(y) + DaysBeforeMonth(y, 12) + 31 == 146097 * n400 + 4 * 36524 + 1
  {
    DaysBeforeYearByCycles(y, n400, 3, 24, 3);
    LeapByCycles(y, n400, 3, 24, 3);
  }

  /** The quotients and remainders of `_ord2ymd`'s cycle decomposition of a day count. */
  lemma CycleBounds(n: int)
    requires 0 <= n < MaxOrdinal
    ensures var n400, a := n / 146097, n % 146097;
            var n100, b := a / 36524, a % 36524;
            var n4, c := b / 1461, b % 1461;
            var n1, e := c / 365, c % 365;
            && n == 146097 * n400 + 36524 * n100 + 1461 * n4 + 365 * n1 + e
            && 0 <= n400 <= 24 && 0 <= n100 <= 4 && 0 <= n4 <= 24 && 0 <= n1 <= 4 && 0 <= e < 365
            && (n400 == 24 ==> n100 <= 3 && (n100 == 3 && n4 == 24 ==> n1 <= 2))
            && (n100 == 4 ==> n4 == 0 && n1 == 0 && e == 0)
            && (n1 == 4 ==> n4 <= 23 && e == 0)
  {
    var n400, a := n / 146097, n % 146097;
    assert n == 146097 * n400 + a && 0 <= a < 146097;
    assert n400 <= 24;
    var n100, b := a / 36524, a % 36524;
    assert a == 36524 * n100 + b && 0 <= b < 36524 && n100 <= 4;
    var n4, c := b / 1461, b % 1461;
    assert b == 1461 * n4 + c && 0 <= c < 1461 && n4 <= 24;
    var n1, e := c / 365, c % 365;
    assert c == 365 * n1 + e && 0 <= e < 365 && n1 <= 4;
    if n400 == 24 {
      assert a <= 145730;
    }
  }

  /** `r` is a valid calendar date and `o` is its ordinal. */
  predicate IsDateOf(r: Ymd, o: int) {
    ValidYmd(r.year, r.month, r.day) && Ordinal(r.year, r.month, r.day) == o
  }

  /** The date `FromCycles` assembles exists and lies exactly `e + 1` days into its cycles. */
  lemma FromCyclesIsCalendarDate(n400: int, n100: int, n4: int, n1: int, e: int)
    requires 0 <= n400 <= 24 && 0 <= n100 <= 4 && 0 <= n4 <= 24 && 0 <= n1 <= 4 && 0 <= e < 365
    requires n400 == 24 ==> n100 <= 3 && (n100 == 3 && n4 == 24 ==> n1 <= 2)
    requires n100 == 4 ==> n4 == 0 && n1 == 0 && e == 0
    requires n1 == 4 ==> n4 <= 23 && e == 0
    ensures IsDateOf(FromCycles(n400, n100, n4, n1, e), 146097 * n400 + 36524 * n100 + 1461 * n4 + 365 * n1 + e + 1)
  {
    var year := n400 * 400 + 1 + n100 * 100 + n4 * 4 + n1;
    var r := FromCycles(n400, n100, n4, n1, e);
    if n100 == 4 {
      assert r == Ymd(year - 1, 12, 31);
      LastDayOfFourCenturies(year - 1, n400);
    } else if n1 == 4 {
      assert r == Ymd(year - 1, 12, 31);
      LastDayOfFourYears(year - 1, n400, n100, n4);
    } else {
      var md := MonthAndDay(e, n1 == 3 && (n4 != 24 || n100 == 3));
      assert r == Ymd(year, md.0, md.1);
      DayInsideYear(year, n400, n100, n4, n1, e);
    }
  }

  /** `fromordinal` and `toordinal` agree: the date `ToYmd` gives exists and has ordinal `o`. */
  lemma ToYmdIsCalendarDate(o: Date)
    ensures IsDateOf(ToYmd(o), o)
  {
    var n := o - 1;
    CycleBounds(n);
    var n400, a := n / 146097, n % 146097;
    var n100, b := a / 36524, a % 36524;
    var n4, c := b / 1461, b % 1461;
    FromCyclesIsCalendarDate(n400, n100, n4, c / 365, c % 365);
    assert ToYmd(o) == FromCycles(n400, n100, n4, c / 365, c % 365);
  }

  function Month(d: Date): int { ToYmd(d).month }

  function DayOfMonth(d: Date): int { ToYmd(d).day }

  function Year(d: Date): int { ToYmd(d).year }

  /** `date.weekday()`: Monday is 0 and Sunday is 6. */
  function Weekday(d: Date): (w: int)
    ensures 0 <= w < 7
  {
    (d + 6) % 7
  }

  /** `date.strftime('%A')` in the C locale. */
  function DayName(d: Date): (name: string)
    ensures name in {"Monday", "Tuesday", "Wednesday", "Thursday", "Friday", "Saturday", "Sunday"}
    ensures name == "Saturday" || name == "Sunday" <==> Weekday(d) >= 5
  {
    ["Monday", "Tuesday", "Wednesday", "Thursday", "Friday", "Saturday", "Sunday"][Weekday(d)]
  }

  /** `date + timedelta(days=n)`, which raises OverflowError outside `date.min .. date.max`. */
  function AddDays(d: Date, n: int): (r: Option<Date>)
    ensures r.Some? <==> 1 <= d + n <= MaxOrdinal
    ensures r.Some? ==> r.value - d == n
  {
    if 1 <= d + n <= MaxOrdinal then Some(d + n) else None
  }

  /** pandas `.dt.dayofyear`. */
  function DayOfYear(d: Date): int {
    d - DaysBeforeYear(Year(d))
  }

  /** The ordinal of the Monday that starts ISO week 1 of year `y` (`_isoweek1monday`). */
  function IsoWeekOneMonday(y: int): int {
    WeekOneMonday(DaysBeforeYear(y) + 1)
  }

  /** The Monday that starts week 1 of a year whose January 1 is day `first`. */
  function WeekOneMonday(first: int): int {
    var firstWeekday := (first + 6) % 7;
    if firstWeekday > 3 then first - firstWeekday + 7 else first - firstWeekday
  }

  /** The week number of `date.isocalendar()`, which pandas' `.dt.isocalendar().week` reports. */
  function IsoWeek(d: Date): int {
    IsoWeekIn(d, Year(d))
  }

  /** The ISO week number of day `d` of year `y`. */
  function IsoWeekIn(d: int, y: int): int {
    var offset := d - IsoWeekOneMonday(y);
    if offset < 0 then
      (d - IsoWeekOneMonday(y - 1)) / 7 + 1
    else if offset / 7 >= 52 && d >= IsoWeekOneMonday(y + 1) then
      1
    else
      offset / 7 + 1
  }

  /** Days in year `y`. */
  function YearLength(y: int): int {
    if IsLeap(y) then 366 else 365
  }

  /** Consecutive years start `YearLength` days apart. */
  lemma DaysBeforeNextYear(y: int)
    requires y >= 1
    ensures DaysBeforeYear(y + 1) == DaysBeforeYear(y) + YearLength(y)
  {
    var z := y - 1;
    assert y / 4 - z / 4 == (if y % 4 == 0 then 1 else 0);
    assert y / 100 - z / 100 == (if y % 100 == 0 then 1 else 0);
    assert y / 400 - z / 400 == (if y % 400 == 0 then 1 else 0);
  }

  /** A month ends no later than its year. */
  lemma MonthEndsInYear(y: int, m: int)
    requires 1 <= m <= 12
    ensures 0 <= DaysBeforeMonth(y, m) && DaysBeforeMonth(y, m) + DaysInMonth(y, m) <= YearLength(y)
  {
    if m == 1 { } else if m == 2 { } else if m == 3 { } else if m == 4 { } else if m == 5 { } else if m == 6 { }
    else if m == 7 { } else if m == 8 { } else if m == 9 { } else if m == 10 { } else if m == 11 { } else { }
  }

  /**
   * A date lies in its year, and pandas' `dayofyear` counts the days of the
   * year's earlier months plus the day of the month, from 1 to the year's length.
   */
  lemma DayOfYearInYear(d: Date)
    ensures DaysBeforeYear(Year(d)) < d <= DaysBeforeYear(Year(d) + 1)
    ensures DayOfYear(d) == DaysBeforeMonth(Year(d), Month(d)) + DayOfMonth(d)
    ensures 1 <= DayOfYear(d) <= YearLength(Year(d))
  {
    ToYmdIsCalendarDate(d);
    MonthEndsInYear(Year(d), Month(d));
    DaysBeforeNextYear(Year(d));
  }

  /** Week 1 starts on the Monday of the week that holds the year's fourth day. */
  lemma WeekOneMondayHoldsDay4(first: int)
    ensures (WeekOneMonday(first) + 6) % 7 == 0
    ensures WeekOneMonday(first) <= first + 3 < WeekOneMonday(first) + 7
  {
  }

  /** Two week-1 Mondays a year of 365 or 366 days apart lie 52 or 53 whole weeks apart. */
  lemma WeekOneMondayGap(first: int, len: int)
    requires 365 <= len <= 366
    ensures var gap := WeekOneMonday(first + len) - WeekOneMonday(first);
            gap % 7 == 0 && 364 <= gap <= 371
  {
    var m1, m2 := WeekOneMonday(first), WeekOneMonday(first + len);
    WeekOneMondayHoldsDay4(first);
    WeekOneMondayHoldsDay4(first + len);
    var k1, k2 := (m1 + 6) / 7, (m2 + 6) / 7;
    assert m1 == 7 * k1 - 6 && m2 == 7 * k2 - 6;
    assert m2 - m1 == 7 * (k2 - k1);
    assert 51 < k2 - k1 < 54;
  }

  /** Week 1 of the ISO year starts on the Monday of the week that holds January 4. */
  lemma IsoWeekOneHoldsJanuary4(y: int)
    ensures (IsoWeekOneMonday(y) + 6) % 7 == 0
    ensures IsoWeekOneMonday(y) <= DaysBeforeYear(y) + 4 < IsoWeekOneMonday(y) + 7
  {
    WeekOneMondayHoldsDay4(DaysBeforeYear(y) + 1);
  }

  /** Week-1 Mondays of consecutive years lie 52 or 53 whole weeks apart. */
  lemma IsoYearLength(y: int)
    requires y >= 1
    ensures var gap := IsoWeekOneMonday(y + 1) - IsoWeekOneMonday(y);
            gap % 7 == 0 && 364 <= gap <= 371
  {
    DaysBeforeNextYear(y);
    WeekOneMondayGap(DaysBeforeYear(y) + 1, YearLength(y));
    assert DaysBeforeYear(y + 1) + 1 == DaysBeforeYear(y) + 1 + YearLength(y);
  }

  /** The ISO week number is always between 1 and 53. */
  lemma IsoWeekRange(d: Date)
    ensures 1 <= IsoWeek(d) <= 53
  {
    DayOfYearInYear(d);
    IsoWeekInRange(d, Year(d));
  }

  /** A day of year `y` lies in week 1 to 53 of `y` or of the year before. */
  lemma IsoWeekInRange(d: int, y: int)
    requires 1 <= y && DaysBeforeYear(y) < d <= DaysBeforeYear(y + 1)
    ensures 1 <= IsoWeekIn(d, y) <= 53
  {
    IsoWeekOneHoldsJanuary4(y);
    assert IsoWeekOneMonday(1) == 1 by {
      assert DaysBeforeYear(1) == 0;
      assert WeekOneMonday(1) == 1;
    }
    if d < IsoWeekOneMonday(y) {
      assert y >= 2;
      DaysBeforeNextYear(y - 1);
      IsoWeekOneHoldsJanuary4(y - 1);
      IsoYearLength(y - 1);
      assert 0 <= d - IsoWeekOneMonday(y - 1) < 371;
    } else {
      IsoYearLength(y);
    }
  }
}
