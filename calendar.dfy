/**
 * Civil calendar dates of the proleptic Gregorian calendar, as the
 * dashboard handles them: ISO `YYYY-MM-DD` strings compared as text, and
 * JavaScript `Date` objects moved by `setDate` and `setMonth`.
 *
 * A date is a (year, month, day) triple with a 1-based month. Comparing two
 * valid triples lexicographically is what comparing their ISO strings does.
 */
module Calendar {

  datatype Date = Date(year: int, month: int, day: int)

  predicate IsLeapYear(y: int) {
    y % 4 == 0 && (y % 100 != 0 || y % 400 == 0)
  }

  function DaysInMonth(y: int, m: int): (n: int)
    requires 1 <= m <= 12
    ensures 28 <= n <= 31
    ensures m == 2 ==> (n == 29 <==> IsLeapYear(y))
  {
    if m == 2 then (if IsLeapYear(y) then 29 else 28)
    else if m == 4 || m == 6 || m == 9 || m == 11 then 30
    else 31
  }

  function DaysInYear(y: int): int {
    if IsLeapYear(y) then 366 else 365
  }

  predicate ValidDate(d: Date) {
    1 <= d.month <= 12 && 1 <= d.day <= DaysInMonth(d.year, d.month)
  }

  /** `a < b` as ISO date strings compare. */
  predicate Before(a: Date, b: Date) {
    a.year < b.year
    || (a.year == b.year && a.month < b.month)
    || (a.year == b.year && a.month == b.month && a.day < b.day)
  }

  /** `a <= b` as ISO date strings compare. */
  predicate NotAfter(a: Date, b: Date) {
    Before(a, b) || a == b
  }

  // ----- Day numbers and weekdays -----

  /** Days in the years before `y`, counted from 0001-01-01. */
  function DaysBeforeYear(y: int): int {
    var a := y - 1;
    365 * a + a / 4 - a / 100 + a / 400
  }

  /** Days of year `y` before the first of month `m`. */
  function DaysBeforeMonth(y: int, m: int): int
    requires 1 <= m <= 12
  {
    var common :=
      if m == 1 then 0 else if m == 2 then 31 else if m == 3 then 59
      else if m == 4 then 90 else if m == 5 then 120 else if m == 6 then 151
      else if m == 7 then 181 else if m == 8 then 212 else if m == 9 then 243
      else if m == 10 then 273 else if m == 11 then 304 else 334;
    if m > 2 && IsLeapYear(y) then common + 1 else common
  }

  /** The number of days from 0001-01-01 (day 0) to `d`. */
  function DayNumber(d: Date): int
    requires ValidDate(d)
  {
    DaysBeforeYear(d.year) + DaysBeforeMonth(d.year, d.month) + d.day - 1
  }

  /** `Date.prototype.getDay`: 0 is Sunday, 1 Monday, ..., 6 Saturday. 0001-01-01 was a Monday. */
  function Weekday(d: Date): (w: int)
    requires ValidDate(d)
    ensures 0 <= w < 7
  {
    (DayNumber(d) + 1) % 7
  }

  const Sunday := 0
  const Monday := 1

  /** The count agrees with the calendar: 2024-01-15 was a Monday, 2024-01-14 a Sunday, 2000-02-29 a Tuesday, 1970-01-01 a Thursday. */
  lemma WeekdayExamples()
    ensures Weekday(Date(2024, 1, 15)) == Monday
    ensures Weekday(Date(2024, 1, 14)) == Sunday
    ensures Weekday(Date(2000, 2, 29)) == 2
    ensures Weekday(Date(1970, 1, 1)) == 4
  {
  }

  // ----- Moving by days (`setDate(getDate() + k)`) -----

  function NextDay(d: Date): (r: Date)
    requires ValidDate(d)
    ensures ValidDate(r)
  {
    if d.day < DaysInMonth(d.year, d.month) then Date(d.year, d.month, d.day + 1)
    else if d.month < 12 then Date(d.year, d.month + 1, 1)
    else Date(d.year + 1, 1, 1)
  }

  function PrevDay(d: Date): (r: Date)
    requires ValidDate(d)
    ensures ValidDate(r)
  {
    if d.day > 1 then Date(d.year, d.month, d.day - 1)
    else if d.month > 1 then Date(d.year, d.month - 1, DaysInMonth(d.year, d.month - 1))
    else Date(d.year - 1, 12, 31)
  }

  /** The date `k` days after `d` (before it when `k` is negative). */
  function AddDays(d: Date, k: int): (r: Date)
    requires ValidDate(d)
    ensures ValidDate(r)
    decreases if k < 0 then -k else k
  {
    if k == 0 then d
    else if k > 0 then AddDays(NextDay(d), k - 1)
    else AddDays(PrevDay(d), k + 1)
  }

  lemma YearStep(y: int)
    ensures DaysBeforeYear(y + 1) == DaysBeforeYear(y) + DaysInYear(y)
  {
    var a := y - 1;
    DivStep4(a);
    DivStep100(a);
    DivStep400(a);
    LeapDivisors(y);
    assert DaysBeforeYear(y + 1) == 365 * y + y / 4 - y / 100 + y / 400;
  }

  /** A multiple of 400 is a multiple of 100, and a multiple of 100 is a multiple of 4. */
  lemma LeapDivisors(y: int)
    ensures y % 400 == 0 ==> y % 100 == 0
    ensures y % 100 == 0 ==> y % 4 == 0
  {
    if y % 400 == 0 {
      var k := y / 400;
      assert y == 100 * (4 * k);
    }
    if y % 100 == 0 {
      var k := y / 100;
      assert y == 4 * (25 * k);
    }
  }

  lemma DivStep4(a: int)
    ensures (a + 1) / 4 == a / 4 + (if (a + 1) % 4 == 0 then 1 else 0)
  {
  }

  lemma DivStep100(a: int)
    ensures (a + 1) / 100 == a / 100 + (if (a + 1) % 100 == 0 then 1 else 0)
  {
  }

  lemma DivStep400(a: int)
    ensures (a + 1) / 400 == a / 400 + (if (a + 1) % 400 == 0 then 1 else 0)
  {
  }

  lemma MonthStep(y: int, m: int)
    requires 1 <= m < 12
    ensures DaysBeforeMonth(y, m + 1) == DaysBeforeMonth(y, m) + DaysInMonth(y, m)
  {
  }

  lemma LastMonthEnds(y: int)
    ensures DaysBeforeMonth(y, 12) + 31 == DaysInYear(y)
  {
  }

  lemma NextDayNumber(d: Date)
    requires ValidDate(d)
    ensures DayNumber(NextDay(d)) == DayNumber(d) + 1
  {
    if d.day == DaysInMonth(d.year, d.month) {
      if d.month < 12 {
        MonthStep(d.year, d.month);
      } else {
        YearStep(d.year);
        LastMonthEnds(d.year);
      }
    }
  }

  lemma PrevDayNumber(d: Date)
    requires ValidDate(d)
    ensures DayNumber(PrevDay(d)) == DayNumber(d) - 1
  {
    if d.day == 1 {
      if d.month > 1 {
        MonthStep(d.year, d.month - 1);
      } else {
        YearStep(d.year - 1);
        LastMonthEnds(d.year - 1);
      }
    }
  }

  /** Moving `k` days moves the day number by exactly `k`. */
  lemma {:induction false} AddDaysNumber(d: Date, k: int)
    requires ValidDate(d)
    ensures DayNumber(AddDays(d, k)) == DayNumber(d) + k
    decreases if k < 0 then -k else k
  {
    if k > 0 {
      NextDayNumber(d);
      AddDaysNumber(NextDay(d), k - 1);
    } else if k < 0 {
      PrevDayNumber(d);
      AddDaysNumber(PrevDay(d), k + 1);
    }
  }

  lemma PrevNext(d: Date)
    requires ValidDate(d)
    ensures PrevDay(NextDay(d)) == d && NextDay(PrevDay(d)) == d
  {
  }

  /** Moving `a` days and then `b` days is moving `a + b` days. */
  lemma {:induction false} AddDaysAdd(d: Date, a: int, b: int)
    requires ValidDate(d)
    ensures AddDays(AddDays(d, a), b) == AddDays(d, a + b)
    decreases if a < 0 then -a else a
  {
    if a > 0 {
      AddDaysAdd(NextDay(d), a - 1, b);
      if a + b <= 0 {
        PrevNext(d);
        AddDaysPrevOfNext(d, a + b);
      }
    } else if a < 0 {
      AddDaysAdd(PrevDay(d), a + 1, b);
      if a + b >= 0 {
        PrevNext(d);
        AddDaysNextOfPrev(d, a + b);
      }
    }
  }

  lemma AddDaysPrevOfNext(d: Date, k: int)
    requires ValidDate(d) && k <= 0
    ensures AddDays(NextDay(d), k - 1) == AddDays(d, k)
  {
    PrevNext(d);
  }

  lemma AddDaysNextOfPrev(d: Date, k: int)
    requires ValidDate(d) && k >= 0
    ensures AddDays(PrevDay(d), k + 1) == AddDays(d, k)
  {
    PrevNext(d);
  }

  /** Moving `k` days advances the weekday by `k` modulo 7. */
  lemma WeekdayAddDays(d: Date, k: int)
    requires ValidDate(d)
    ensures Weekday(AddDays(d, k)) == (Weekday(d) + k) % 7
  {
    AddDaysNumber(d, k);
    ModShift(DayNumber(d) + 1, k);
  }

  /** A week earlier or later falls on the same weekday. */
  lemma WeekdayWeekShift(d: Date, n: int)
    requires ValidDate(d) && (n == 1 || n == -1)
    ensures Weekday(AddDays(d, 7 * n)) == Weekday(d)
  {
    AddDaysNumber(d, 7 * n);
    ModMultiple(n, DayNumber(d) + 1);
  }

  lemma ModShift(x: int, k: int)
    ensures (x + k) % 7 == (x % 7 + k) % 7
  {
    var q := x / 7;
    assert x == 7 * q + x % 7;
    ModMultiple(q, x % 7 + k);
  }

  lemma ModMultiple(q: int, z: int)
    ensures (7 * q + z) % 7 == z % 7
  {
    var t, s := z / 7, z % 7;
    assert z == 7 * t + s && 0 <= s < 7;
    assert 7 * q + z == 7 * (q + t) + s;
  }

  // ----- Order -----

  lemma DaysBeforeYearMonotone(y1: int, y2: int)
    requires y1 <= y2
    ensures DaysBeforeYear(y1) + 365 * (y2 - y1) <= DaysBeforeYear(y2)
    decreases y2 - y1
  {
    if y1 < y2 {
      DaysBeforeYearMonotone(y1, y2 - 1);
      YearStep(y2 - 1);
    }
  }

  lemma DaysBeforeMonthMonotone(y: int, m1: int, m2: int)
    requires 1 <= m1 < m2 <= 12
    ensures DaysBeforeMonth(y, m1) + DaysInMonth(y, m1) <= DaysBeforeMonth(y, m2)
  {
  }

  lemma DayOfYearBound(d: Date)
    requires ValidDate(d)
    ensures DaysBeforeMonth(d.year, d.month) + d.day <= DaysInYear(d.year)
  {
    if d.month < 12 {
      DaysBeforeMonthMonotone(d.year, d.month, 12);
    }
  }

  /** The string order of ISO dates is the order of their day numbers. */
  lemma BeforeIffDayNumber(a: Date, b: Date)
    requires ValidDate(a) && ValidDate(b)
    ensures Before(a, b) <==> DayNumber(a) < DayNumber(b)
  {
    if a.year < b.year {
      DayOfYearBound(a);
      YearStep(a.year);
      DaysBeforeYearMonotone(a.year + 1, b.year);
    } else if b.year < a.year {
      DayOfYearBound(b);
      YearStep(b.year);
      DaysBeforeYearMonotone(b.year + 1, a.year);
    } else if a.month < b.month {
      DaysBeforeMonthMonotone(a.year, a.month, b.month);
    } else if b.month < a.month {
      DaysBeforeMonthMonotone(a.year, b.month, a.month);
    }
  }

  lemma NotAfterIffDayNumber(a: Date, b: Date)
    requires ValidDate(a) && ValidDate(b)
    ensures NotAfter(a, b) <==> DayNumber(a) <= DayNumber(b)
  {
    BeforeIffDayNumber(a, b);
    BeforeIffDayNumber(b, a);
  }

  /** A valid date is determined by its day number. */
  lemma DayNumberInjective(a: Date, b: Date)
    requires ValidDate(a) && ValidDate(b) && DayNumber(a) == DayNumber(b)
    ensures a == b
  {
    BeforeIffDayNumber(a, b);
    BeforeIffDayNumber(b, a);
  }

  // ----- Moving by months (`setMonth(getMonth() + i)`) -----

  /** The (year, month) that lies `i` months after the month of `d`. */
  function TargetMonth(d: Date, i: nat): (ym: (int, int))
    ensures 1 <= ym.1 <= 12
    ensures MonthOrdinal(ym.0, ym.1) == MonthOrdinal(d.year, d.month) + i
  {
    var total := d.month - 1 + i;
    (d.year + total / 12, total % 12 + 1)
  }

  /**
   * `setMonth(getMonth() + i)` on a date: the month index carries into the
   * year, the day of the month is kept, and a day past the end of the target
   * month rolls forward into the month after it (JavaScript does not clamp).
   */
  function AddMonths(d: Date, i: nat): (r: Date)
    requires ValidDate(d)
    ensures ValidDate(r)
  {
    var (y, m) := TargetMonth(d, i);
    var len := DaysInMonth(y, m);
    if d.day <= len then Date(y, m, d.day)
    else if m < 12 then Date(y, m + 1, d.day - len)
    else Date(y + 1, 1, d.day - len)
  }

  /** Months since year 0, month 1: the position of a (year, month) on a single line. */
  function MonthOrdinal(y: int, m: int): int {
    12 * y + (m - 1)
  }

  /**
   * What `AddMonths` promises: the same day in the month `i` months later
   * when that month has it, and otherwise the overflow past that month's
   * last day carried into the following month.
   */
  lemma AddMonthsSpec(d: Date, i: nat)
    requires ValidDate(d)
    ensures var r := AddMonths(d, i);
      var (y, m) := TargetMonth(d, i);
      if d.day <= DaysInMonth(y, m) then
        r.day == d.day && MonthOrdinal(r.year, r.month) == MonthOrdinal(d.year, d.month) + i
      else
        r.day == d.day - DaysInMonth(y, m)
        && MonthOrdinal(r.year, r.month) == MonthOrdinal(d.year, d.month) + i + 1
  {
  }

  lemma AddMonthsZero(d: Date)
    requires ValidDate(d)
    ensures AddMonths(d, 0) == d
  {
  }

  /** A day that exists in the target month is kept unchanged. */
  lemma AddMonthsKeepsShortDays(d: Date, i: nat)
    requires ValidDate(d) && d.day <= 28
    ensures AddMonths(d, i).day == d.day
    ensures MonthOrdinal(AddMonths(d, i).year, AddMonths(d, i).month) == MonthOrdinal(d.year, d.month) + i
  {
  }
}
