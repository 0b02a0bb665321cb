/**
 * The proleptic Gregorian calendar as Python's `datetime.date` and
 * `calendar.monthrange` implement it: years 1 to 9999, month lengths with the
 * leap-day rule, chronological comparison of dates, and calendar months.
 */
module Calendar {
  const MinYear := 1
  const MaxYear := 9999

  /** Days of each month in a common year, January first (`calendar.mdays`). */
  const MonthDays: seq<int> := [31, 28, 31, 30, 31, 30, 31, 31, 30, 31, 30, 31]

  datatype Date = Date(year: int, month: int, day: int)

  /** `calendar.isleap`: every fourth year, except centuries not divisible by 400. */
  predicate IsLeapYear(year: int) {
    year % 4 == 0 && (year % 100 != 0 || year % 400 == 0)
  }

  /** The second component of `calendar.monthrange(year, month)`. */
  function DaysInMonth(year: int, month: int): (n: int)
    requires 1 <= month <= 12
    ensures 28 <= n <= 31
    ensures n == 31 <==> month in {1, 3, 5, 7, 8, 10, 12}
    ensures n == 30 <==> month in {4, 6, 9, 11}
    ensures n < 30 <==> month == 2
    ensures n == 29 <==> month == 2 && IsLeapYear(year)
  {
    MonthDays[month - 1] + if month == 2 && IsLeapYear(year) then 1 else 0
  }

  /** What `date(year, month, day)` accepts without raising `ValueError`. */
  predicate IsValidDate(d: Date) {
    MinYear <= d.year <= MaxYear && 1 <= d.month <= 12 && 1 <= d.day <= DaysInMonth(d.year, d.month)
  }

  /** A value of Python's `datetime.date`. */
  type CalendarDate = d: Date | IsValidDate(d) witness Date(1, 1, 1)

  /** `a <= b` on `datetime.date`: chronological, i.e. lexicographic on (year, month, day). */
  predicate DateLe(a: Date, b: Date) {
    a.year < b.year || (a.year == b.year && (a.month < b.month || (a.month == b.month && a.day <= b.day)))
  }

  /** A calendar month, the unit of the `%Y-%m` labels. */
  datatype YearMonth = YearMonth(year: int, month: int)

  predicate IsValidMonth(m: YearMonth) {
    MinYear <= m.year && 1 <= m.month <= 12
  }

  function MonthOf(d: Date): YearMonth {
    YearMonth(d.year, d.month)
  }

  function FirstDay(m: YearMonth): Date {
    Date(m.year, m.month, 1)
  }

  /** Months counted from January of year 0: consecutive months have consecutive indices. */
  function MonthIndex(m: YearMonth): int {
    m.year * 12 + m.month - 1
  }

  /** The month after `m`: December rolls over to January of the next year. */
  function NextMonth(m: YearMonth): (r: YearMonth)
    requires IsValidMonth(m)
    ensures IsValidMonth(r)
    ensures MonthIndex(r) == MonthIndex(m) + 1
  {
    if m.month == 12 then YearMonth(m.year + 1, 1) else YearMonth(m.year, m.month + 1)
  }

  /** Two valid months with the same index are the same month. */
  lemma MonthIndexInjective(a: YearMonth, b: YearMonth)
    requires 1 <= a.month <= 12 && 1 <= b.month <= 12
    ensures MonthIndex(a) == MonthIndex(b) <==> a == b
  {
  }

  /**
   * The first day of a month is not after `today` exactly when that month is
   * not after today's month.
   */
  lemma FirstDayLe(m: YearMonth, today: CalendarDate)
    requires 1 <= m.month <= 12
    ensures DateLe(FirstDay(m), today) <==> MonthIndex(m) <= MonthIndex(MonthOf(today))
  {
  }
}
