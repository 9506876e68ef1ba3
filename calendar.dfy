/**
 * Proleptic Gregorian dates (Python's `datetime.date`) and the month
 * arithmetic of `dateutil.relativedelta` that `Booking.duration_months`
 * relies on: adding whole months clamps the day to the target month's length,
 * and the whole-month difference of two dates is the number of such months
 * that fit between them, counted from the earlier argument toward the later.
 */
module Calendar {

  datatype Date = Date(year: int, month: int, day: int)

  predicate IsLeapYear(y: int)
  {
    y % 4 == 0 && (y % 100 != 0 || y % 400 == 0)
  }

  function DaysInMonth(year: int, month: int): (n: int)
    requires 1 <= month <= 12
    ensures 28 <= n <= 31
  {
    if month == 2 then (if IsLeapYear(year) then 29 else 28)
    else if month == 4 || month == 6 || month == 9 || month == 11 then 30
    else 31
  }

  /** A date that exists in the calendar. */
  predicate Valid(d: Date)
  {
    1 <= d.month <= 12 && 1 <= d.day <= DaysInMonth(d.year, d.month)
  }

  /** `a < b` on `datetime.date`: by year, then month, then day. */
  predicate Before(a: Date, b: Date)
  {
    a.year < b.year || (a.year == b.year && (a.month < b.month || (a.month == b.month && a.day < b.day)))
  }

  /** `a <= b` on `datetime.date`. */
  predicate NotAfter(a: Date, b: Date)
  {
    !Before(b, a)
  }

  /** The number of months since month 1 of year 0. */
  function MonthIndex(d: Date): int
  {
    d.year * 12 + d.month - 1
  }

  /** On valid dates the calendar order is the order of (month index, day). */
  lemma OrderByMonthIndex(a: Date, b: Date)
    requires Valid(a) && Valid(b)
    ensures Before(a, b) <==> MonthIndex(a) < MonthIndex(b) || (MonthIndex(a) == MonthIndex(b) && a.day < b.day)
    ensures MonthIndex(a) == MonthIndex(b) ==> a.year == b.year && a.month == b.month
  {
  }

  /** `d + relativedelta(months=k)`: move k months and clamp the day to the month's length. */
  function AddMonths(d: Date, k: int): (r: Date)
    requires Valid(d)
    ensures Valid(r)
    ensures MonthIndex(r) == MonthIndex(d) + k
    ensures r.day == if d.day <= DaysInMonth(r.year, r.month) then d.day else DaysInMonth(r.year, r.month)
  {
    var total := MonthIndex(d) + k;
    var y, m := total / 12, total % 12 + 1;
    var last := DaysInMonth(y, m);
    Date(y, m, if d.day <= last then d.day else last)
  }

  lemma AddNoMonths(d: Date)
    requires Valid(d)
    ensures AddMonths(d, 0) == d
  {
    OrderByMonthIndex(d, AddMonths(d, 0));
  }

  /** Adding more months always lands strictly later. */
  lemma AddMonthsIncreasing(d: Date, j: int, k: int)
    requires Valid(d) && j < k
    ensures Before(AddMonths(d, j), AddMonths(d, k))
  {
    OrderByMonthIndex(AddMonths(d, j), AddMonths(d, k));
  }

  /**
   * The signed whole-month difference `relativedelta(end, start)` expresses
   * as `years * 12 + months`: start from the difference of the month indices
   * and step back once toward zero when the clamped day overshoots `end`.
   */
  function RelativeMonths(end: Date, start: Date): (total: int)
    requires Valid(start) && Valid(end)
    ensures MonthIndex(end) - MonthIndex(start) - 1 <= total <= MonthIndex(end) - MonthIndex(start) + 1
  {
    var naive := MonthIndex(end) - MonthIndex(start);
    if NotAfter(start, end) then
      (if Before(end, AddMonths(start, naive)) then naive - 1 else naive)
    else
      (if Before(AddMonths(start, naive), end) then naive + 1 else naive)
  }

  /**
   * Forward spans: the difference is the largest k >= 0 such that `start`
   * plus k months is not after `end`; the leftover is under one month.
   */
  lemma {:induction false} RelativeMonthsForward(end: Date, start: Date)
    requires Valid(start) && Valid(end) && NotAfter(start, end)
    ensures var k := RelativeMonths(end, start);
      && 0 <= k
      && NotAfter(AddMonths(start, k), end)
      && Before(end, AddMonths(start, k + 1))
  {
    var naive := MonthIndex(end) - MonthIndex(start);
    var c := AddMonths(start, naive);
    OrderByMonthIndex(start, end);
    OrderByMonthIndex(end, c);
    if Before(end, c) {
      AddNoMonths(start);
      OrderByMonthIndex(AddMonths(start, naive - 1), end);
    } else {
      OrderByMonthIndex(end, AddMonths(start, naive + 1));
    }
  }

  /**
   * Backward spans: the difference is the mirror image, truncated toward
   * zero: the smallest k <= 0 such that `start` plus k months is not before `end`.
   */
  lemma {:induction false} RelativeMonthsBackward(end: Date, start: Date)
    requires Valid(start) && Valid(end) && Before(end, start)
    ensures var k := RelativeMonths(end, start);
      && k <= 0
      && NotAfter(end, AddMonths(start, k))
      && Before(AddMonths(start, k - 1), end)
  {
    var naive := MonthIndex(end) - MonthIndex(start);
    var c := AddMonths(start, naive);
    OrderByMonthIndex(end, start);
    OrderByMonthIndex(c, end);
    if Before(c, end) {
      AddNoMonths(start);
      OrderByMonthIndex(end, AddMonths(start, naive + 1));
    } else {
      OrderByMonthIndex(AddMonths(start, naive - 1), end);
    }
  }

  /** No larger number of whole months fits into a forward span. */
  lemma RelativeMonthsIsLargest(end: Date, start: Date, k: int)
    requires Valid(start) && Valid(end) && NotAfter(start, end)
    requires k > RelativeMonths(end, start)
    ensures Before(end, AddMonths(start, k))
  {
    var r := RelativeMonths(end, start);
    RelativeMonthsForward(end, start);
    if k > r + 1 {
      AddMonthsIncreasing(start, r + 1, k);
    }
  }

  /** The `years` and `months` fields of a relativedelta, both carrying the span's sign. */
  datatype YearsMonths = YearsMonths(years: int, months: int)

  /** How relativedelta normalises a signed month total into years and months. */
  function SplitMonths(total: int): (ym: YearsMonths)
    ensures -11 <= ym.months <= 11
    ensures total >= 0 ==> ym.years >= 0 && ym.months >= 0
    ensures total <= 0 ==> ym.years <= 0 && ym.months <= 0
    ensures ym.years * 12 + ym.months == total
  {
    if total >= 0 then YearsMonths(total / 12, total % 12)
    else YearsMonths(-((-total) / 12), -((-total) % 12))
  }
}
