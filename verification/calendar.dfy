/** Gregorian month lengths, as `calendar.monthrange(year, month)[1]` returns them. */
module Calendar {

  /** The year and the month as the script reads them: the year from one call of
      `date.today()` and the month from a second call. At a year boundary the two
      calls can straddle midnight, so the pair need not be the year and month of any
      single instant. The ranges are those a Python `date` can hold. */
  datatype Today = Today(year: int, month: int)

  predicate ValidToday(t: Today) {
    1 <= t.year <= 9999 && 1 <= t.month <= 12
  }

  /** The Gregorian rule: every fourth year, except centuries not divisible by 400.
      (Python's `%` floors, Dafny's is Euclidean; with a positive divisor both agree.) */
  predicate IsLeapYear(year: int) {
    year % 4 == 0 && (year % 100 != 0 || year % 400 == 0)
  }

  /** Days per month in a common year, indexed by month number (index 0 unused). */
  const CommonMonthDays: seq<nat> := [0, 31, 28, 31, 30, 31, 30, 31, 31, 30, 31, 30, 31]

  /** The table lookup plus the February adjustment. */
  function DaysInMonth(year: int, month: int): (days: nat)
    requires 1 <= month <= 12
    ensures month in {1, 3, 5, 7, 8, 10, 12} ==> days == 31
    ensures month in {4, 6, 9, 11} ==> days == 30
    ensures month == 2 && IsLeapYear(year) ==> days == 29
    ensures month == 2 && !IsLeapYear(year) ==> days == 28
  {
    CommonMonthDays[month] + if month == 2 && IsLeapYear(year) then 1 else 0
  }

  /** Days in the months before `month` of `year`. */
  function DaysBefore(year: int, month: int): (days: nat)
    requires 1 <= month <= 13
    decreases month
  {
    if month == 1 then 0 else DaysBefore(year, month - 1) + DaysInMonth(year, month - 1)
  }

  /** The twelve months add up to the length of the year. */
  lemma YearLength(year: int)
    ensures DaysBefore(year, 13) == if IsLeapYear(year) then 366 else 365
  {
  }
}
