/**
 * Calendar arithmetic of JavaScript's `Date`, as the reminder controller uses it.
 *
 * A date is a civil (year, month, day) value with JavaScript's zero-based month
 * (January is 0), as `getFullYear`, `getMonth` and `getDate` report it. Time of day
 * and time zones are not modelled. The day numbers below are those of ECMA-262
 * (section 21.4.1, "Time Values and Time Range"): `DayFromYear` and `MakeDay` are
 * written as the standard defines them, with integer (floor) division.
 */
module Calendar {

  datatype CivilDate = CivilDate(year: int, month: int, day: int)

  predicate IsLeapYear(y: int) {
    y % 4 == 0 && (y % 100 != 0 || y % 400 == 0)
  }

  function DaysInYear(y: int): int {
    if IsLeapYear(y) then 366 else 365
  }

  function DaysInMonth(y: int, m: int): (n: int)
    requires 0 <= m < 12
    ensures 28 <= n <= 31
  {
    if m == 1 then (if IsLeapYear(y) then 29 else 28)
    else if m == 3 || m == 5 || m == 8 || m == 10 then 30
    else 31
  }

  /** A date that `Date` can report: the month is 0..11 and the day exists in that month. */
  predicate IsValid(c: CivilDate) {
    0 <= c.month < 12 && 1 <= c.day <= DaysInMonth(c.year, c.month)
  }

  /** The calendar date of a JavaScript `Date` value. */
  type Date = c: CivilDate | IsValid(c) witness CivilDate(1970, 0, 1)

  /** Number of days of year `y` that lie before month `m` (the table of ECMA-262 MonthFromTime). */
  function DaysBeforeMonth(y: int, m: int): int
    requires 0 <= m <= 12
  {
    var leap := if m >= 2 && IsLeapYear(y) then 1 else 0;
    leap + (if m == 0 then 0 else if m == 1 then 31 else if m == 2 then 59
            else if m == 3 then 90 else if m == 4 then 120 else if m == 5 then 151
            else if m == 6 then 181 else if m == 7 then 212 else if m == 8 then 243
            else if m == 9 then 273 else if m == 10 then 304 else if m == 11 then 334
            else 365)
  }

  /** ECMA-262 DayFromYear: the day number of January 1 of year `y` (1970-01-01 is day 0). */
  function DayFromYear(y: int): int {
    365 * (y - 1970) + (y - 1969) / 4 - (y - 1901) / 100 + (y - 1601) / 400
  }

  /** Day number of the first day of month `m` of year `y`. */
  function FirstDayOfMonth(y: int, m: int): int
    requires 0 <= m < 12
  {
    DayFromYear(y) + DaysBeforeMonth(y, m)
  }

  /** ECMA-262 Day(t) of the time value a valid civil date stands for. */
  function DayNumber(c: CivilDate): int
    requires 0 <= c.month < 12
  {
    FirstDayOfMonth(c.year, c.month) + c.day - 1
  }

  /**
   * ECMA-262 MakeDay(year, month, date) for integer arguments: the month may lie outside
   * 0..11 and the date outside the month; both overflow into the following (or preceding)
   * months and years.
   */
  function MakeDay(year: int, month: int, date: int): int {
    FirstDayOfMonth(year + month / 12, month % 12) + date - 1
  }

  /** The civil date that a day-of-month overflow of at most one month lands on. */
  function NextMonthStart(y: int, m: int): (r: (int, int))
    requires 0 <= m < 12
    ensures 0 <= r.1 < 12
  {
    if m == 11 then (y + 1, 0) else (y, m + 1)
  }

  /** The date seven calendar days after `c` (what `setDate(getDate() + 7)` produces). */
  function AddWeek(c: Date): (r: Date)
  {
    var len := DaysInMonth(c.year, c.month);
    if c.day + 7 <= len then c.(day := c.day + 7)
    else
      var (y, m) := NextMonthStart(c.year, c.month);
      CivilDate(y, m, c.day + 7 - len)
  }

  /**
   * The date one month after `c` (what `setMonth(getMonth() + 1)` produces): the same day of
   * the next month when it exists, otherwise the overflow into the month after that.
   */
  function AddMonth(c: Date): (r: Date)
  {
    var (y, m) := NextMonthStart(c.year, c.month);
    var len := DaysInMonth(y, m);
    if c.day <= len then CivilDate(y, m, c.day)
    else
      var (y2, m2) := NextMonthStart(y, m);
      CivilDate(y2, m2, c.day - len)
  }

  // ---------------------------------------------------------------------------------------
  // Facts about day numbers

  lemma FourYearStep(y: int)
    ensures (y - 1968) / 4 - (y - 1969) / 4 == (if y % 4 == 0 then 1 else 0)
  {
  }

  lemma CenturyStep(y: int)
    ensures (y - 1900) / 100 - (y - 1901) / 100 == (if y % 100 == 0 then 1 else 0)
  {
  }

  lemma FourCenturyStep(y: int)
    ensures (y - 1600) / 400 - (y - 1601) / 400 == (if y % 400 == 0 then 1 else 0)
  {
  }

  lemma DayFromYearDifference(y: int)
    ensures DayFromYear(y + 1) - DayFromYear(y)
            == 365 + ((y - 1968) / 4 - (y - 1969) / 4) - ((y - 1900) / 100 - (y - 1901) / 100)
               + ((y - 1600) / 400 - (y - 1601) / 400)
  {
  }

  /** The length of year `y` in terms of the leap-day counts of `DayFromYear`. */
  lemma LeapDays(y: int)
    ensures DaysInYear(y)
            == 365 + ((y - 1968) / 4 - (y - 1969) / 4) - ((y - 1900) / 100 - (y - 1901) / 100)
               + ((y - 1600) / 400 - (y - 1601) / 400)
  {
    FourYearStep(y);
    CenturyStep(y);
    FourCenturyStep(y);
  }

  /** January 1 of the next year lies exactly one year length later. */
  lemma DayFromYearStep(y: int)
    ensures DayFromYear(y + 1) == DayFromYear(y) + DaysInYear(y)
  {
    DayFromYearDifference(y);
    LeapDays(y);
  }

  /** The first day of the following month lies one month length later. */
  lemma NextMonthStartDay(y: int, m: int)
    requires 0 <= m < 12
    ensures var (y2, m2) := NextMonthStart(y, m);
            FirstDayOfMonth(y2, m2) == FirstDayOfMonth(y, m) + DaysInMonth(y, m)
  {
    if m == 11 {
      DayFromYearStep(y);
    }
  }

  lemma DayFromYearMonotone(y1: int, y2: int)
    requires y1 < y2
    ensures DayFromYear(y1) + DaysInYear(y1) <= DayFromYear(y2)
    decreases y2 - y1
  {
    DayFromYearStep(y1);
    if y1 + 1 < y2 {
      DayFromYearMonotone(y1 + 1, y2);
    }
  }

  /** Day numbers follow calendar order: an earlier valid date has a smaller day number. */
  lemma {:induction false} DayNumberOrder(a: CivilDate, b: CivilDate)
    requires IsValid(a) && IsValid(b)
    requires a.year < b.year || (a.year == b.year && a.month < b.month)
             || (a.year == b.year && a.month == b.month && a.day < b.day)
    ensures DayNumber(a) < DayNumber(b)
  {
    if a.year < b.year {
      DayFromYearMonotone(a.year, b.year);
      assert DaysBeforeMonth(a.year, a.month) + DaysInMonth(a.year, a.month)
             <= DaysInYear(a.year);
    } else if a.month < b.month {
      assert DaysBeforeMonth(a.year, a.month) + DaysInMonth(a.year, a.month)
             <= DaysBeforeMonth(a.year, b.month);
    }
  }

  /** Two valid dates with the same day number are the same date. */
  lemma DayNumberInjective(a: CivilDate, b: CivilDate)
    requires IsValid(a) && IsValid(b)
    requires DayNumber(a) == DayNumber(b)
    ensures a == b
  {
    if a.year < b.year || (a.year == b.year && a.month < b.month)
       || (a.year == b.year && a.month == b.month && a.day < b.day) {
      DayNumberOrder(a, b);
    } else if b.year < a.year || (b.year == a.year && b.month < a.month)
              || (b.year == a.year && b.month == a.month && b.day < a.day) {
      DayNumberOrder(b, a);
    }
  }

  /** For valid dates, "d lies in [start of t, start of t + 1 day)" is "d is t". */
  lemma SameDayWindow(d: CivilDate, t: CivilDate)
    requires IsValid(d) && IsValid(t)
    ensures DayNumber(t) <= DayNumber(d) < DayNumber(t) + 1 <==> d == t
  {
    if DayNumber(t) <= DayNumber(d) < DayNumber(t) + 1 {
      DayNumberInjective(d, t);
    }
  }

  /** For a month in 0..11, MakeDay counts from the first day of that very month. */
  lemma MakeDayInYear(y: int, m: int, d: int)
    requires 0 <= m < 12
    ensures MakeDay(y, m, d) == FirstDayOfMonth(y, m) + d - 1
  {
    assert m / 12 == 0 && m % 12 == m;
  }

  // ---------------------------------------------------------------------------------------
  // The weekly and monthly advance

  /** A weekly advance is a valid date exactly 7 days later, rolling over month and year ends. */
  lemma AddWeekIsSevenDays(c: Date)
    ensures DayNumber(AddWeek(c)) == DayNumber(c) + 7
    ensures DayNumber(AddWeek(c)) == MakeDay(c.year, c.month, c.day + 7)
  {
    MakeDayInYear(c.year, c.month, c.day + 7);
    if c.day + 7 > DaysInMonth(c.year, c.month) {
      NextMonthStartDay(c.year, c.month);
    }
  }

  /**
   * A monthly advance is the valid date that ECMA-262 MakeDay(year, month + 1, day) denotes:
   * the month goes up by one (December to January of the next year), the day is kept when
   * that month has it, and otherwise overflows into the month after.
   */
  lemma {:induction false} AddMonthIsMakeDay(c: Date)
    ensures DayNumber(AddMonth(c)) == MakeDay(c.year, c.month + 1, c.day)
    ensures var (y, m) := NextMonthStart(c.year, c.month);
            c.day <= DaysInMonth(y, m) ==> AddMonth(c) == CivilDate(y, m, c.day)
    ensures DayNumber(AddMonth(c)) >= DayNumber(c) + 28
  {
    var (y, m) := NextMonthStart(c.year, c.month);
    assert (y, m) == (c.year + (c.month + 1) / 12, (c.month + 1) % 12);
    NextMonthStartDay(c.year, c.month);
    NextMonthStartDay(y, m);
  }

  lemma JanuaryThirtyFirstOverflows()
    ensures AddMonth(CivilDate(2023, 0, 31)) == CivilDate(2023, 2, 3)
    ensures AddMonth(CivilDate(2024, 0, 31)) == CivilDate(2024, 2, 2)
    ensures AddMonth(CivilDate(2023, 11, 15)) == CivilDate(2024, 0, 15)
    ensures AddWeek(CivilDate(2024, 2, 1)) == CivilDate(2024, 2, 8)
    ensures AddWeek(CivilDate(2023, 11, 28)) == CivilDate(2024, 0, 4)
  {
  }

  // ---------------------------------------------------------------------------------------
  // The mutable `Date` object

  /** A JavaScript `Date` whose local calendar fields are updated in place by its setters. */
  class JsDate {
    var year: int
    var month: int
    var date: int

    ghost predicate Valid()
      reads this
    {
      IsValid(CivilDate(year, month, date))
    }

    function Value(): CivilDate
      reads this
    {
      CivilDate(year, month, date)
    }

    /** `new Date(c)`: a fresh object holding a copy of `c`. */
    constructor (c: CivilDate)
      requires IsValid(c)
      ensures Valid() && Value() == c
    {
      year, month, date := c.year, c.month, c.day;
    }

    /**
     * Stores the date MakeDay(y, m, dt) denotes, normalising a day-of-month that lies outside
     * month `m` by walking forwards or backwards one month at a time.
     */
    method SetFromMakeDay(y: int, m: int, dt: int)
      requires 0 <= m < 12
      modifies this
      ensures Valid()
      ensures DayNumber(Value()) == FirstDayOfMonth(y, m) + dt - 1
    {
      var yy, mm, dd := y, m, dt;
      ghost var target := FirstDayOfMonth(y, m) + dt - 1;
      while dd > DaysInMonth(yy, mm)
        invariant 0 <= mm < 12
        invariant FirstDayOfMonth(yy, mm) + dd - 1 == target
        decreases dd
      {
        NextMonthStartDay(yy, mm);
        var len := DaysInMonth(yy, mm);
        yy, mm := NextMonthStart(yy, mm).0, NextMonthStart(yy, mm).1;
        dd := dd - len;
      }
      while dd < 1
        invariant 0 <= mm < 12
        invariant dd <= DaysInMonth(yy, mm)
        invariant FirstDayOfMonth(yy, mm) + dd - 1 == target
        decreases -dd
      {
        var py, pm := if mm == 0 then yy - 1 else yy, if mm == 0 then 11 else mm - 1;
        NextMonthStartDay(py, pm);
        yy, mm := py, pm;
        dd := dd + DaysInMonth(py, pm);
      }
      year, month, date := yy, mm, dd;
    }

    /** `setDate(dt)`: the same year and month with day-of-month `dt`, normalised. */
    method SetDate(dt: int)
      requires Valid()
      modifies this
      ensures Valid()
      ensures DayNumber(Value()) == MakeDay(old(year), old(month), dt)
    {
      SetFromMakeDay(year, month, dt);
    }

    /** `setMonth(mo)`: the same year and day-of-month with month `mo`, normalised. */
    method SetMonth(mo: int)
      requires Valid()
      modifies this
      ensures Valid()
      ensures DayNumber(Value()) == MakeDay(old(year), mo, old(date))
    {
      SetFromMakeDay(year + mo / 12, mo % 12, date);
    }
  }
}
