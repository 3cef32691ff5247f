/** Calendar dates and "today plus one day" (`tomorrow.setDate(today.getDate() + 1)`). */
module Calendar {

  /** A proleptic Gregorian calendar date, as JavaScript's `Date` uses. */
  datatype Date = Date(year: int, month: int, day: int)

  predicate IsLeapYear(y: int)
  {
    (y % 4 == 0 && y % 100 != 0) || y % 400 == 0
  }

  function DaysInMonth(y: int, m: int): (n: int)
    requires 1 <= m <= 12
    ensures 28 <= n <= 31
    ensures n == 29 <==> m == 2 && IsLeapYear(y)
  {
    if m == 2 then (if IsLeapYear(y) then 29 else 28)
    else if m == 4 || m == 6 || m == 9 || m == 11 then 30
    else 31
  }

  predicate Valid(d: Date)
  {
    1 <= d.month <= 12 && 1 <= d.day <= DaysInMonth(d.year, d.month)
  }

  /** Strict chronological order of dates. */
  predicate Before(a: Date, b: Date)
  {
    a.year < b.year ||
    (a.year == b.year && a.month < b.month) ||
    (a.year == b.year && a.month == b.month && a.day < b.day)
  }

  /** The next calendar day; a day past the month's end rolls over to the first of the
      next month, and past December to January of the next year (as `setDate` does). */
  function Successor(d: Date): (e: Date)
    requires Valid(d)
    ensures Valid(e)
    ensures Before(d, e)
    ensures e.day == 1 <==> d.day == DaysInMonth(d.year, d.month)
  {
    if d.day < DaysInMonth(d.year, d.month) then Date(d.year, d.month, d.day + 1)
    else if d.month < 12 then Date(d.year, d.month + 1, 1)
    else Date(d.year + 1, 1, 1)
  }

  /** No valid date lies strictly between a date and its successor: `Successor(d)` is the
      earliest valid date after `d`. */
  lemma SuccessorIsNext(d: Date, e: Date)
    requires Valid(d) && Valid(e) && Before(d, e)
    ensures e == Successor(d) || Before(Successor(d), e)
  {
  }
}
