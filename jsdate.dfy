/** The part of JavaScript's `Date` the dashboard relies on: the local-midnight
    time value of `new Date(year, monthIndex, day)`, counted in whole days
    since 1970-01-01. Only the order and the difference of these values are
    ever used, so a day count stands for the millisecond time value. */
module JsDate {

  predicate IsLeap(y: int) {
    y % 4 == 0 && (y % 100 != 0 || y % 400 == 0)
  }

  function DaysInMonth(y: int, m: int): (n: int)
    requires 1 <= m <= 12
    ensures 28 <= n <= 31
  {
    if m == 2 then (if IsLeap(y) then 29 else 28)
    else if m == 4 || m == 6 || m == 9 || m == 11 then 30
    else 31
  }

  /** Leap years in the proleptic Gregorian calendar before year `y`, up to a
      constant (Dafny's `/` rounds down for a positive divisor). */
  function LeapsBefore(y: int): int {
    (y - 1) / 4 - (y - 1) / 100 + (y - 1) / 400
  }

  function DaysBeforeYear(y: int): int {
    365 * (y - 1970) + LeapsBefore(y) - LeapsBefore(1970)
  }

  function DaysBeforeMonth(y: int, m: int): int
    requires 1 <= m <= 12
  {
    (if m == 1 then 0 else if m == 2 then 31 else if m == 3 then 59 else if m == 4 then 90
     else if m == 5 then 120 else if m == 6 then 151 else if m == 7 then 181 else if m == 8 then 212
     else if m == 9 then 243 else if m == 10 then 273 else if m == 11 then 304 else 334)
    + (if m > 2 && IsLeap(y) then 1 else 0)
  }

  /** Day number of the calendar date y-m-d (1 <= m <= 12; any day, which
      simply counts on from the first of the month). */
  function DaysFromCivil(y: int, m: int, d: int): int
    requires 1 <= m <= 12
  {
    DaysBeforeYear(y) + DaysBeforeMonth(y, m) + d - 1
  }

  /** The year `new Date(y, ...)` actually uses: 0..99 means 1900..1999. */
  function FullYear(y: int): int {
    if 0 <= y <= 99 then 1900 + y else y
  }

  /** The day of `new Date(y, monthIndex, day)`: the month index rolls over
      into the year and the day rolls over into later or earlier months. */
  function MakeDay(y: int, monthIndex: int, day: int): int {
    var year := FullYear(y) + monthIndex / 12;
    var month := monthIndex % 12 + 1;
    DaysFromCivil(year, month, 1) + day - 1
  }

  /** A year has 365 days, or 366 when it is a leap year. */
  lemma {:induction false} YearLength(y: int)
    ensures DaysBeforeYear(y + 1) - DaysBeforeYear(y) == if IsLeap(y) then 366 else 365
  {
    LeapStep(y);
  }

  lemma LeapStep(y: int)
    ensures LeapsBefore(y + 1) - LeapsBefore(y) == if IsLeap(y) then 1 else 0
  {
    DivStep(y, 4);
    DivStep(y, 100);
    DivStep(y, 400);
    assert y % 100 == 0 ==> y % 4 == 0 by {
      if y % 100 == 0 { DivMultiple(y, 4, 25); }
    }
    assert y % 400 == 0 ==> y % 100 == 0 by {
      if y % 400 == 0 { DivMultiple(y, 100, 4); }
    }
  }

  /** Going from y - 1 to y, the quotient by k grows exactly when k divides y. */
  lemma DivStep(y: int, k: int)
    requires k > 0
    ensures y / k - (y - 1) / k == if y % k == 0 then 1 else 0
  {
    var q, r := (y - 1) / k, (y - 1) % k;
    assert y - 1 == q * k + r && 0 <= r < k;
    if r == k - 1 {
      assert y == (q + 1) * k;
      DivExact(y, q + 1, k);
    } else {
      assert y == q * k + (r + 1);
      DivWithRemainder(y, q, r + 1, k);
    }
  }

  lemma DivExact(y: int, q: int, k: int)
    requires k > 0 && y == q * k
    ensures y / k == q && y % k == 0
  {
    DivWithRemainder(y, q, 0, k);
  }

  lemma DivWithRemainder(y: int, q: int, r: int, k: int)
    requires k > 0 && 0 <= r < k && y == q * k + r
    ensures y / k == q && y % k == r
  {
    var q', r' := y / k, y % k;
    assert y == q' * k + r' && 0 <= r' < k;
    if q' > q {
      assert q' * k >= (q + 1) * k by { MulMonotone(q + 1, q', k); }
    } else if q' < q {
      assert q * k >= (q' + 1) * k by { MulMonotone(q' + 1, q, k); }
    }
  }

  lemma MulMonotone(a: int, b: int, k: int)
    requires a <= b && k > 0
    ensures a * k <= b * k
  {
    assert b * k - a * k == (b - a) * k;
  }

  /** A multiple of k * j is a multiple of k. */
  lemma DivMultiple(y: int, k: int, j: int)
    requires k > 0 && j > 0 && y % (k * j) == 0
    ensures y % k == 0
  {
    var q := y / (k * j);
    assert y == q * (k * j);
    assert y == (q * j) * k;
    DivExact(y, q * j, k);
  }

  /** A month has DaysInMonth days: its last day is followed by the first of
      the next month. */
  lemma MonthLength(y: int, m: int)
    requires 1 <= m <= 12
    ensures m < 12 ==> DaysFromCivil(y, m, DaysInMonth(y, m) + 1) == DaysFromCivil(y, m + 1, 1)
    ensures m == 12 ==> DaysFromCivil(y, m, DaysInMonth(y, m) + 1) == DaysFromCivil(y + 1, 1, 1)
  {
    if m == 12 {
      YearLength(y);
    }
  }

  /** `new Date(y, 12, d)` is the same day as `new Date(y + 1, 0, d)`. */
  lemma MonthRollover(y: int, d: int)
    requires y >= 100
    ensures MakeDay(y, 12, d) == MakeDay(y + 1, 0, d)
  {
  }

  /** From year 100 on, `new Date(y, m - 1, d)` is the calendar date y-m-d. */
  lemma MakeDayOfCalendar(y: int, m: int, d: int)
    requires y >= 100 && 1 <= m <= 12
    ensures MakeDay(y, m - 1, d) == DaysFromCivil(y, m, d)
  {
    assert (m - 1) / 12 == 0 && (m - 1) % 12 == m - 1;
  }

  /** A valid calendar date. */
  predicate ValidDate(y: int, m: int, d: int) {
    1 <= m <= 12 && 1 <= d <= DaysInMonth(y, m)
  }

  /** Dates of the same year fall between the year's first day and the next
      year's first day. */
  lemma {:induction false} WithinYear(y: int, m: int, d: int)
    requires ValidDate(y, m, d)
    ensures DaysBeforeYear(y) <= DaysFromCivil(y, m, d) < DaysBeforeYear(y + 1)
  {
    YearLength(y);
  }

  lemma {:induction false} YearsIncrease(y1: int, y2: int)
    requires y1 <= y2
    ensures DaysBeforeYear(y1) <= DaysBeforeYear(y2)
    decreases y2 - y1
  {
    if y1 < y2 {
      YearLength(y1);
      YearsIncrease(y1 + 1, y2);
    }
  }

  /** Lexicographic order on (year, month, day). */
  predicate DateLe(y1: int, m1: int, d1: int, y2: int, m2: int, d2: int) {
    y1 < y2 || (y1 == y2 && (m1 < m2 || (m1 == m2 && d1 <= d2)))
  }

  /** On valid dates the day number orders dates as the calendar does. */
  lemma {:induction false} DayOrder(y1: int, m1: int, d1: int, y2: int, m2: int, d2: int)
    requires ValidDate(y1, m1, d1) && ValidDate(y2, m2, d2)
    ensures DaysFromCivil(y1, m1, d1) <= DaysFromCivil(y2, m2, d2) <==> DateLe(y1, m1, d1, y2, m2, d2)
  {
    if y1 < y2 {
      WithinYear(y1, m1, d1);
      WithinYear(y2, m2, d2);
      YearsIncrease(y1 + 1, y2);
    } else if y2 < y1 {
      WithinYear(y1, m1, d1);
      WithinYear(y2, m2, d2);
      YearsIncrease(y2 + 1, y1);
    }
  }
}
