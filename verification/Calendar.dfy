/** Calendar arithmetic as the source's time library does it: dates are turned
    into a count of days, and a day beyond the end of its month runs over into
    the next one. */
module Calendar {

  datatype Date = Date(year: int, month: int, day: int)

  predicate IsLeap(year: int) {
    year % 4 == 0 && (year % 100 != 0 || year % 400 == 0)
  }

  function DaysIn(year: int, month: int): int {
    if month == 2 then (if IsLeap(year) then 29 else 28)
    else if month == 4 || month == 6 || month == 9 || month == 11 then 30
    else 31
  }

  predicate Valid(d: Date) {
    1 <= d.month <= 12 && 1 <= d.day <= DaysIn(d.year, d.month)
  }

  // ----- the count of days -----

  function DaysBeforeYear(year: int): int {
    365 * year + (year - 1) / 4 - (year - 1) / 100 + (year - 1) / 400
  }

  function DaysBeforeMonth(year: int, month: int): int
    requires 1 <= month <= 12
  {
    var ordinary := [0, 31, 59, 90, 120, 151, 181, 212, 243, 273, 304, 334][month - 1];
    if month > 2 && IsLeap(year) then ordinary + 1 else ordinary
  }

  // The day may lie outside the month: time.Date only counts.
  function DayNumber(year: int, month: int, day: int): int
    requires 1 <= month <= 12
  {
    DaysBeforeYear(year) + DaysBeforeMonth(year, month) + day - 1
  }

  // ----- against counting one day at a time -----

  function NextDay(d: Date): (n: Date)
    requires Valid(d)
    ensures Valid(n)
  {
    if d.day < DaysIn(d.year, d.month) then d.(day := d.day + 1)
    else if d.month < 12 then Date(d.year, d.month + 1, 1)
    else Date(d.year + 1, 1, 1)
  }

  lemma YearLength(year: int)
    ensures DaysBeforeYear(year + 1) == DaysBeforeYear(year) + (if IsLeap(year) then 366 else 365)
  {
    FourYears(year);
    Century(year);
    FourCenturies(year);
    Nested(year);
  }

  lemma FourYears(year: int)
    ensures year / 4 - (year - 1) / 4 == if year % 4 == 0 then 1 else 0
  {
  }

  lemma Century(year: int)
    ensures year / 100 - (year - 1) / 100 == if year % 100 == 0 then 1 else 0
  {
    var q, r := year / 100, year % 100;
    assert year == 100 * q + r;
    assert year - 1 == if r == 0 then 100 * (q - 1) + 99 else 100 * q + (r - 1);
  }

  lemma FourCenturies(year: int)
    ensures year / 400 - (year - 1) / 400 == if year % 400 == 0 then 1 else 0
  {
    var q, r := year / 400, year % 400;
    assert year == 400 * q + r;
    assert year - 1 == if r == 0 then 400 * (q - 1) + 399 else 400 * q + (r - 1);
  }

  lemma Nested(year: int)
    ensures year % 100 == 0 ==> year % 4 == 0
    ensures year % 400 == 0 ==> year % 100 == 0
  {
    assert year == 100 * (year / 100) + year % 100 == 4 * (25 * (year / 100)) + year % 100;
    assert year == 400 * (year / 400) + year % 400 == 100 * (4 * (year / 400)) + year % 400;
  }

  lemma MonthLength(year: int, month: int)
    requires 1 <= month <= 12
    ensures DaysBeforeMonth(year, month) + DaysIn(year, month) ==
              if month < 12 then DaysBeforeMonth(year, month + 1) else (if IsLeap(year) then 366 else 365)
  {
  }

  /** The count goes up by one with every day of the calendar. */
  lemma CountsDays(d: Date)
    requires Valid(d)
    ensures var n := NextDay(d); DayNumber(n.year, n.month, n.day) == DayNumber(d.year, d.month, d.day) + 1
  {
    MonthLength(d.year, d.month);
    YearLength(d.year);
  }

  // ----- the order of dates -----

  predicate Before(a: Date, b: Date) {
    a.year < b.year || (a.year == b.year && (a.month < b.month || (a.month == b.month && a.day < b.day)))
  }

  lemma {:induction false} YearsApart(a: int, b: int)
    requires a < b
    ensures DaysBeforeYear(b) >= DaysBeforeYear(a) + (if IsLeap(a) then 366 else 365)
    decreases b - a
  {
    YearLength(b - 1);
    if a < b - 1 {
      YearsApart(a, b - 1);
    }
  }

  lemma {:induction false} MonthsApart(year: int, a: int, b: int)
    requires 1 <= a < b <= 12
    ensures DaysBeforeMonth(year, b) >= DaysBeforeMonth(year, a) + DaysIn(year, a)
    decreases b - a
  {
    MonthLength(year, b - 1);
    if a < b - 1 {
      MonthsApart(year, a, b - 1);
    }
  }

  lemma WithinYear(d: Date)
    requires Valid(d)
    ensures 0 <= DaysBeforeMonth(d.year, d.month) + d.day - 1 < if IsLeap(d.year) then 366 else 365
  {
    MonthLength(d.year, d.month);
    if d.month < 12 {
      MonthsApart(d.year, d.month, 12);
    }
  }

  // A valid date comes before another exactly when its day has the smaller number.
  lemma OrderIsCount(a: Date, b: Date)
    requires Valid(a) && Valid(b)
    ensures Before(a, b) <==> DayNumber(a.year, a.month, a.day) < DayNumber(b.year, b.month, b.day)
  {
    WithinYear(a);
    WithinYear(b);
    if a.year < b.year {
      YearsApart(a.year, b.year);
    } else if b.year < a.year {
      YearsApart(b.year, a.year);
    } else if a.month < b.month {
      MonthsApart(a.year, a.month, b.month);
    } else if b.month < a.month {
      MonthsApart(a.year, b.month, a.month);
    }
  }
}
