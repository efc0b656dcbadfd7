/**
 * Civil calendar dates (proleptic Gregorian, UTC midnight), the part of Go's
 * `time.Time` the calculation engine uses: comparison (`Before`, `After`,
 * `Equal`), `AddDate(0, k, 0)` with Go's day-overflow normalisation,
 * `AddDate(0, 0, 1)`, and the day count `End.Sub(Start).Hours() / 24`.
 */
module Dates {

  datatype Ymd = Ymd(year: int, month: int, day: int)

  predicate IsLeap(y: int) {
    y % 4 == 0 && (y % 100 != 0 || y % 400 == 0)
  }

  function DaysInMonth(y: int, m: int): (r: int)
    requires 1 <= m <= 12
    ensures 28 <= r <= 31
  {
    if m == 2 then (if IsLeap(y) then 29 else 28)
    else if m == 4 || m == 6 || m == 9 || m == 11 then 30
    else 31
  }

  /** A calendar date that exists. */
  type Date = d: Ymd | 1 <= d.month <= 12 && 1 <= d.day <= DaysInMonth(d.year, d.month)
    witness Ymd(1, 1, 1)

  /** Go's zero `time.Time` is 0001-01-01 00:00:00 UTC; `IsZero` tests for it. */
  const ZeroDate: Date := Ymd(1, 1, 1)

  predicate IsZero(d: Date) {
    d == ZeroDate
  }

  /** `a.Before(b)`: chronological order, which on civil dates is lexicographic. */
  predicate Before(a: Date, b: Date) {
    a.year < b.year
    || (a.year == b.year && a.month < b.month)
    || (a.year == b.year && a.month == b.month && a.day < b.day)
  }

  /** `a.After(b)`. */
  predicate After(a: Date, b: Date) {
    Before(b, a)
  }

  lemma BeforeIsStrictTotalOrder(a: Date, b: Date, c: Date)
    ensures !Before(a, a)
    ensures Before(a, b) ==> !Before(b, a)
    ensures Before(a, b) && Before(b, c) ==> Before(a, c)
    ensures a == b || Before(a, b) || Before(b, a)
  {
  }

  /** The first day of the month after `(y, m)`. */
  function FirstOfNextMonth(y: int, m: int): (r: Date)
    requires 1 <= m <= 12
    ensures r.day == 1
    ensures m < 12 ==> r.year == y && r.month == m + 1
    ensures m == 12 ==> r.year == y + 1 && r.month == 1
  {
    if m == 12 then Ymd(y + 1, 1, 1) else Ymd(y, m + 1, 1)
  }

  /**
   * Go's `d.AddDate(0, k, 0)`: add `k` to the month, carry whole years, then
   * normalise a day that the target month does not have into the following
   * month (31 January + 1 month is 3 March, or 2 March in a leap year).
   */
  function AddMonths(d: Date, k: int): (r: Date)
  {
    var m0 := d.month - 1 + k;
    var y := d.year + m0 / 12;
    var m := m0 % 12 + 1;
    var dim := DaysInMonth(y, m);
    if d.day <= dim then Ymd(y, m, d.day)
    else
      var next := FirstOfNextMonth(y, m);
      Ymd(next.year, next.month, d.day - dim)
  }

  /** Stepping forward by at least one month always moves strictly later. */
  lemma AddMonthsIsLater(d: Date, k: int)
    requires k >= 1
    ensures Before(d, AddMonths(d, k))
  {
    var m0 := d.month - 1 + k;
    var y := d.year + m0 / 12;
    var m := m0 % 12 + 1;
    assert y > d.year || (y == d.year && m > d.month) by {
      if m0 < 12 {
        assert m0 / 12 == 0 && m0 % 12 == m0;
      } else {
        assert m0 / 12 >= 1;
      }
    }
  }

  /** Go normalises rather than clamps: month ends spill into the next month. */
  lemma AddMonthsOverflowExamples()
    ensures AddMonths(Ymd(2023, 1, 31), 1) == Ymd(2023, 3, 3)
    ensures AddMonths(Ymd(2024, 1, 31), 1) == Ymd(2024, 3, 2)
    ensures AddMonths(Ymd(2024, 11, 30), 3) == Ymd(2025, 3, 2)
    ensures AddMonths(Ymd(2024, 2, 29), 12) == Ymd(2025, 3, 1)
  {
  }

  /** `d.AddDate(0, 0, 1)`. */
  function NextDay(d: Date): (r: Date)
    ensures Before(d, r)
  {
    if d.day < DaysInMonth(d.year, d.month) then Ymd(d.year, d.month, d.day + 1)
    else FirstOfNextMonth(d.year, d.month)
  }

  /** `d.AddDate(0, 0, n)` for `n >= 0`, as `n` single-day steps. */
  function AddDays(d: Date, n: nat): (r: Date)
    decreases n
  {
    if n == 0 then d else AddDays(NextDay(d), n - 1)
  }

  function YearLength(y: int): int {
    if IsLeap(y) then 366 else 365
  }

  /** Days from 0001-01-01 to 1 January of year `y` (negative before year 1). */
  function DaysBeforeYear(y: int): int
    decreases if y >= 1 then y - 1 else 1 - y
  {
    if y == 1 then 0
    else if y > 1 then DaysBeforeYear(y - 1) + YearLength(y - 1)
    else DaysBeforeYear(y + 1) - YearLength(y)
  }

  /** Days from 1 January of year `y` to the first of month `m`. */
  function DaysBeforeMonth(y: int, m: int): (r: int)
    requires 1 <= m <= 12
  {
    var cumulative := [0, 31, 59, 90, 120, 151, 181, 212, 243, 273, 304, 334];
    cumulative[m - 1] + (if m > 2 && IsLeap(y) then 1 else 0)
  }

  /** The day number of a date: days elapsed since 0001-01-01. */
  function DayNumber(d: Date): int {
    DaysBeforeYear(d.year) + DaysBeforeMonth(d.year, d.month) + d.day - 1
  }

  lemma DaysBeforeYearStep(y: int)
    ensures DaysBeforeYear(y + 1) == DaysBeforeYear(y) + YearLength(y)
  {
  }

  lemma {:induction false} DaysBeforeYearGrows(y: int, z: int)
    requires y < z
    ensures DaysBeforeYear(y) + YearLength(y) <= DaysBeforeYear(z)
    decreases z - y
  {
    DaysBeforeYearStep(y);
    if y + 1 < z {
      DaysBeforeYearGrows(y + 1, z);
    }
  }

  lemma DayOfYearBounds(d: Date)
    ensures 0 <= DaysBeforeMonth(d.year, d.month) + d.day - 1 < YearLength(d.year)
  {
  }

  lemma DaysBeforeMonthGrows(y: int, m: int, n: int)
    requires 1 <= m < n <= 12
    ensures DaysBeforeMonth(y, m) + DaysInMonth(y, m) <= DaysBeforeMonth(y, n)
  {
  }

  /** Chronological order is the order of day numbers. */
  lemma BeforeIsDayNumberOrder(a: Date, b: Date)
    ensures Before(a, b) <==> DayNumber(a) < DayNumber(b)
  {
    if a.year < b.year {
      DayOfYearBounds(a);
      DayOfYearBounds(b);
      DaysBeforeYearGrows(a.year, b.year);
    } else if b.year < a.year {
      DayOfYearBounds(a);
      DayOfYearBounds(b);
      DaysBeforeYearGrows(b.year, a.year);
    } else if a.month < b.month {
      DaysBeforeMonthGrows(a.year, a.month, b.month);
    } else if b.month < a.month {
      DaysBeforeMonthGrows(a.year, b.month, a.month);
    }
  }

  /** Distinct dates have distinct day numbers. */
  lemma DayNumberInjective(a: Date, b: Date)
    requires DayNumber(a) == DayNumber(b)
    ensures a == b
  {
    BeforeIsDayNumberOrder(a, b);
    BeforeIsDayNumberOrder(b, a);
    BeforeIsStrictTotalOrder(a, b, b);
  }

  lemma NextDayNumber(d: Date)
    ensures DayNumber(NextDay(d)) == DayNumber(d) + 1
  {
    if d.day == DaysInMonth(d.year, d.month) && d.month == 12 {
      DaysBeforeYearStep(d.year);
    }
  }

  /** No date lies strictly between a date and the next day. */
  lemma NextDayIsSuccessor(d: Date, x: Date)
    ensures Before(x, NextDay(d)) <==> !Before(d, x)
  {
    NextDayNumber(d);
    BeforeIsDayNumberOrder(x, NextDay(d));
    BeforeIsDayNumberOrder(d, x);
  }

  lemma {:induction false} AddDaysNumber(d: Date, n: nat)
    ensures DayNumber(AddDays(d, n)) == DayNumber(d) + n
    decreases n
  {
    if n > 0 {
      NextDayNumber(d);
      AddDaysNumber(NextDay(d), n - 1);
    }
  }

  lemma AddDaysNext(d: Date, n: nat)
    ensures AddDays(d, n + 1) == NextDay(AddDays(d, n))
  {
    AddDaysNumber(d, n + 1);
    AddDaysNumber(d, n);
    NextDayNumber(AddDays(d, n));
    DayNumberInjective(AddDays(d, n + 1), NextDay(AddDays(d, n)));
  }

  /** The date `n` days after `d` is the one whose day number is `n` more. */
  lemma DayNumberDate(d: Date, n: nat, e: Date)
    requires DayNumber(e) == DayNumber(d) + n
    ensures AddDays(d, n) == e
  {
    AddDaysNumber(d, n);
    DayNumberInjective(AddDays(d, n), e);
  }

  /** Walking the count of days between two dates from the first reaches the second. */
  lemma AddDaysReaches(start: Date, end: Date)
    requires !Before(end, start)
    ensures DayNumber(end) - DayNumber(start) >= 0
    ensures AddDays(start, DayNumber(end) - DayNumber(start)) == end
  {
    BeforeIsDayNumberOrder(end, start);
    var n := DayNumber(end) - DayNumber(start);
    AddDaysNumber(start, n);
    DayNumberInjective(AddDays(start, n), end);
  }

  /** Go's largest `time.Duration`, 2^63 - 1 nanoseconds (about 292 years). */
  const MaxDuration: int := 0x7FFF_FFFF_FFFF_FFFF

  const NanosPerDay: int := 86_400_000_000_000

  /**
   * The whole days in the largest `time.Duration`: `Sub` saturates at
   * that duration, and its hours divided by 24 truncate to this count.
   */
  const MaxDurationDays: int := 106751

  lemma MaxDurationDaysIsWholeDays()
    ensures MaxDurationDays * NanosPerDay <= MaxDuration < (MaxDurationDays + 1) * NanosPerDay
  {
  }

  /** `end.Sub(start)` is exact: the span between the dates fits in a `time.Duration`. */
  predicate SpanFitsDuration(start: Date, end: Date) {
    -MaxDurationDays <= DayNumber(end) - DayNumber(start) <= MaxDurationDays
  }

  /**
   * `int(end.Sub(start).Hours() / 24) + 1`: the inclusive number of days.
   * `Sub` saturates at the largest `time.Duration`, so a span of more than
   * `MaxDurationDays` days counts as `MaxDurationDays` (and as its negative
   * for a span that far backwards).
   */
  function TotalDays(start: Date, end: Date): (r: int)
    ensures r >= 1 <==> !Before(end, start)
    ensures r <= MaxDurationDays + 1
    ensures SpanFitsDuration(start, end) ==> r == DayNumber(end) - DayNumber(start) + 1
    ensures !Before(end, start) && !SpanFitsDuration(start, end) ==> r == MaxDurationDays + 1
  {
    BeforeIsDayNumberOrder(end, start);
    var days := DayNumber(end) - DayNumber(start);
    (if days > MaxDurationDays then MaxDurationDays else if days < -MaxDurationDays then -MaxDurationDays else days) + 1
  }
}
