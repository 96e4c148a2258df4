/**
 * Proleptic Gregorian calendar dates and the whole-day arithmetic that the
 * checklist relies on: `new Date(start)` followed by `setDate(getDate() + i)`
 * (app.js:205-206, 211-212), which rolls over month ends, year ends and
 * leap days.
 *
 * A date is the triple of its local calendar fields. Time of day, time zones
 * and daylight-saving shifts are not part of the model (see README).
 */
module Calendar {

  datatype Date = Date(year: int, month: int, day: int)

  predicate IsLeapYear(y: int) {
    y % 4 == 0 && (y % 100 != 0 || y % 400 == 0)
  }

  function DaysInMonth(y: int, m: int): (n: int)
    requires 1 <= m <= 12
    ensures 28 <= n <= 31
    ensures m == 2 ==> (n == 29 <==> IsLeapYear(y))
    ensures m != 2 ==> 30 <= n
  {
    if m == 2 then (if IsLeapYear(y) then 29 else 28)
    else if m == 4 || m == 6 || m == 9 || m == 11 then 30
    else 31
  }

  /** A real calendar day: month 1..12 and a day that exists in that month. */
  predicate Valid(d: Date) {
    1 <= d.month <= 12 && 1 <= d.day <= DaysInMonth(d.year, d.month)
  }

  /** Chronological order of calendar days. */
  predicate Le(a: Date, b: Date) {
    a.year < b.year
    || (a.year == b.year && (a.month < b.month || (a.month == b.month && a.day <= b.day)))
  }

  predicate Lt(a: Date, b: Date) {
    Le(a, b) && a != b
  }

  /** The calendar day after `d`. */
  function NextDay(d: Date): (r: Date)
    requires Valid(d)
    ensures Valid(r) && Lt(d, r)
    ensures d.year <= r.year <= d.year + 1
  {
    if d.day < DaysInMonth(d.year, d.month) then Date(d.year, d.month, d.day + 1)
    else if d.month < 12 then Date(d.year, d.month + 1, 1)
    else Date(d.year + 1, 1, 1)
  }

  /** NextDay skips no day: every valid day after `d` is on or after NextDay(d). */
  lemma NextDayIsSuccessor(d: Date, e: Date)
    requires Valid(d) && Valid(e) && Lt(d, e)
    ensures Le(NextDay(d), e)
  {
  }

  /** The day `n` whole calendar days after `d`. */
  function AddDays(d: Date, n: nat): (r: Date)
    requires Valid(d)
    ensures Valid(r) && Le(d, r)
    ensures d.year <= r.year <= d.year + n
    decreases n
  {
    if n == 0 then d else NextDay(AddDays(d, n - 1))
  }

  lemma LeTransitive(a: Date, b: Date, c: Date)
    requires Le(a, b) && Le(b, c)
    ensures Le(a, c)
  {
  }

  /** Adding more days gives a strictly later day. */
  lemma {:induction false} AddDaysIncreasing(d: Date, i: nat, j: nat)
    requires Valid(d) && i < j
    ensures Lt(AddDays(d, i), AddDays(d, j))
    decreases j
  {
    if i < j - 1 {
      AddDaysIncreasing(d, i, j - 1);
      LeTransitive(AddDays(d, i), AddDays(d, j - 1), AddDays(d, j));
    }
  }

  /**
   * The normalisation that JavaScript's Date applies to a day-of-month past the
   * end of the month: the surplus carries into the following months and years.
   */
  function Normalize(y: int, m: int, dayOfMonth: int): (r: Date)
    requires 1 <= m <= 12 && 1 <= dayOfMonth
    ensures Valid(r)
    decreases dayOfMonth
  {
    if dayOfMonth <= DaysInMonth(y, m) then Date(y, m, dayOfMonth)
    else if m == 12 then Normalize(y + 1, 1, dayOfMonth - 31)
    else Normalize(y, m + 1, dayOfMonth - DaysInMonth(y, m))
  }

  /** `date.setDate(dayOfMonth)` on a copy of `d`: same year and month, then normalised. */
  function SetDate(d: Date, dayOfMonth: int): (r: Date)
    requires Valid(d) && 1 <= dayOfMonth
    ensures Valid(r)
    ensures dayOfMonth <= DaysInMonth(d.year, d.month) ==> r == d.(day := dayOfMonth)
  {
    Normalize(d.year, d.month, dayOfMonth)
  }

  /** One more day-of-month is the next calendar day, whichever month the surplus lands in. */
  lemma {:induction false} NormalizeStep(y: int, m: int, k: int)
    requires 1 <= m <= 12 && 1 <= k
    ensures Normalize(y, m, k + 1) == NextDay(Normalize(y, m, k))
    decreases k
  {
    if k > DaysInMonth(y, m) {
      if m == 12 {
        NormalizeStep(y + 1, 1, k - 31);
      } else {
        NormalizeStep(y, m + 1, k - DaysInMonth(y, m));
      }
    }
  }

  /** `setDate(getDate() + i)` adds exactly `i` calendar days. */
  lemma {:induction false} SetDateAddsDays(d: Date, i: nat)
    requires Valid(d)
    ensures SetDate(d, d.day + i) == AddDays(d, i)
  {
    if i > 0 {
      SetDateAddsDays(d, i - 1);
      NormalizeStep(d.year, d.month, d.day + i - 1);
    }
  }
}
