/** The proleptic Gregorian calendar from year 0, which `year_month_day` follows. */
module Calendar {
  datatype Date = Date(year: nat, month: nat, day: nat)

  predicate Leap(y: nat) { y % 4 == 0 && (y % 100 != 0 || y % 400 == 0) }

  function YearDays(y: nat): nat { if Leap(y) then 366 else 365 }

  function MonthDays(y: nat, m: nat): nat {
    if m == 2 then (if Leap(y) then 29 else 28) else if m in {4, 6, 9, 11} then 30 else 31
  }

  /** Days before the first of January of year `y`. */
  function DaysTo(y: nat): nat { if y == 0 then 0 else DaysTo(y - 1) + YearDays(y - 1) }

  /** Days of year `y` before the first of month `m`; month 13 is the end of the year. */
  function DaysToMonth(y: nat, m: nat): nat
    requires 1 <= m
  {
    if m == 1 then 0 else DaysToMonth(y, m - 1) + MonthDays(y, m - 1)
  }

  predicate ValidDate(d: Date) { 1 <= d.month <= 12 && 1 <= d.day <= MonthDays(d.year, d.month) }

  function DayNumber(d: Date): nat
    requires ValidDate(d)
  {
    DaysTo(d.year) + DaysToMonth(d.year, d.month) + (d.day - 1)
  }

  function One(b: bool): int { if b then 1 else 0 }

  lemma Of400(y: nat)
    requires y % 400 == 0
    ensures y % 100 == 0
  {
    assert y == 100 * (4 * (y / 400));
  }

  lemma Of100(y: nat)
    requires y % 100 == 0
    ensures y % 4 == 0
  {
    assert y == 4 * (25 * (y / 100));
  }

  lemma LeapCount(y: nat)
    ensures YearDays(y) == 365 + One(y % 4 == 0) - One(y % 100 == 0) + One(y % 400 == 0)
  {
    if y % 400 == 0 {
      Of400(y);
    }
    if y % 100 == 0 {
      Of100(y);
    }
  }

  lemma Ceiling4(y: nat)
    ensures (y + 4) / 4 == (y + 3) / 4 + One(y % 4 == 0)
  {}

  lemma Ceiling100(y: nat)
    ensures (y + 100) / 100 == (y + 99) / 100 + One(y % 100 == 0)
  {}

  lemma Ceiling400(y: nat)
    ensures (y + 400) / 400 == (y + 399) / 400 + One(y % 400 == 0)
  {}

  /** The closed form of the day count: the calendar repeats every 400 years. */
  lemma {:induction false} DaysToClosed(y: nat)
    ensures DaysTo(y) == 365 * y + (y + 3) / 4 - (y + 99) / 100 + (y + 399) / 400
  {
    if y > 0 {
      DaysToClosed(y - 1);
      LeapCount(y - 1);
      Ceiling4(y - 1);
      Ceiling100(y - 1);
      Ceiling400(y - 1);
    }
  }

  lemma {:induction false} YearsGrow(a: nat, b: nat)
    requires a < b
    ensures DaysTo(a) + YearDays(a) <= DaysTo(b)
  {
    if a + 1 < b {
      YearsGrow(a, b - 1);
    }
  }

  lemma {:induction false} MonthsGrow(y: nat, a: nat, b: nat)
    requires 1 <= a < b
    ensures DaysToMonth(y, a) + MonthDays(y, a) <= DaysToMonth(y, b)
  {
    if a + 1 < b {
      MonthsGrow(y, a, b - 1);
    }
  }

  lemma TwelveMonths(y: nat)
    ensures DaysToMonth(y, 13) == YearDays(y)
  {
    assert DaysToMonth(y, 2) == 31;
    assert DaysToMonth(y, 3) == 31 + MonthDays(y, 2);
    assert DaysToMonth(y, 4) == 62 + MonthDays(y, 2);
    assert DaysToMonth(y, 5) == 92 + MonthDays(y, 2);
    assert DaysToMonth(y, 6) == 123 + MonthDays(y, 2);
    assert DaysToMonth(y, 7) == 153 + MonthDays(y, 2);
    assert DaysToMonth(y, 8) == 184 + MonthDays(y, 2);
    assert DaysToMonth(y, 9) == 215 + MonthDays(y, 2);
    assert DaysToMonth(y, 10) == 245 + MonthDays(y, 2);
    assert DaysToMonth(y, 11) == 276 + MonthDays(y, 2);
    assert DaysToMonth(y, 12) == 306 + MonthDays(y, 2);
  }

  /** The year that day `n` falls in, counting years up from `y`. */
  function YearAt(n: nat, y: nat): (r: nat)
    requires DaysTo(y) <= n
    ensures DaysTo(r) <= n < DaysTo(r) + YearDays(r)
    decreases n - DaysTo(y)
  {
    if n < DaysTo(y) + YearDays(y) then y
    else
      assert DaysTo(y + 1) == DaysTo(y) + YearDays(y);
      YearAt(n, y + 1)
  }

  /** The month that day `k` of year `y` falls in, counting months up from `m`. */
  function MonthAt(y: nat, k: nat, m: nat): (r: nat)
    requires 1 <= m <= 12 && DaysToMonth(y, m) <= k < YearDays(y)
    ensures 1 <= r <= 12 && DaysToMonth(y, r) <= k < DaysToMonth(y, r) + MonthDays(y, r)
    decreases 12 - m
  {
    if k < DaysToMonth(y, m) + MonthDays(y, m) then m
    else
      assert m != 12 by { TwelveMonths(y); }
      MonthAt(y, k, m + 1)
  }

  /** The date of day `n`. */
  function DateOf(n: nat): (d: Date)
    ensures ValidDate(d) && DayNumber(d) == n
  {
    var y := YearAt(n, 0);
    var k := n - DaysTo(y);
    var m := MonthAt(y, k, 1);
    Date(y, m, k - DaysToMonth(y, m) + 1)
  }

  /** Every day has one date and every date one day. */
  lemma DatesAreUnique(a: Date, b: Date)
    requires ValidDate(a) && ValidDate(b) && DayNumber(a) == DayNumber(b)
    ensures a == b
  {
    DateBounds(a);
    DateBounds(b);
    if a.year < b.year {
      YearsGrow(a.year, b.year);
    } else if b.year < a.year {
      YearsGrow(b.year, a.year);
    } else if a.month < b.month {
      MonthsGrow(a.year, a.month, b.month);
    } else if b.month < a.month {
      MonthsGrow(a.year, b.month, a.month);
    }
  }

  lemma DateBounds(d: Date)
    requires ValidDate(d)
    ensures DayNumber(d) < DaysTo(d.year) + YearDays(d.year)
  {
    TwelveMonths(d.year);
    MonthsGrow(d.year, d.month, 13);
  }

  /** Days from the first of January of year 0 to the epoch, and to the end of year 9999. */
  const EPOCH: int := 719528
  const EPOCH_YEAR: nat := 1970
  const LIMIT: int := 3652425
  const LIMIT_YEAR: nat := 10000

  /** The epoch is the first of January 1970 and no other date. */
  lemma EpochIsFirstOf1970(d: Date)
    requires ValidDate(d)
    ensures DayNumber(d) == EPOCH <==> d == Date(EPOCH_YEAR, 1, 1)
  {
    DaysToClosed(EPOCH_YEAR);
    if DayNumber(d) == EPOCH {
      DatesAreUnique(d, Date(EPOCH_YEAR, 1, 1));
    }
  }

  lemma LastYearIs9999(n: nat)
    requires n < LIMIT
    ensures DateOf(n).year < LIMIT_YEAR
  {
    DaysToClosed(LIMIT_YEAR);
    if DateOf(n).year >= LIMIT_YEAR {
      YearsBelow(LIMIT_YEAR, DateOf(n).year);
    }
  }

  lemma YearsBelow(a: nat, b: nat)
    requires a <= b
    ensures DaysTo(a) <= DaysTo(b)
  {
    if a < b {
      YearsGrow(a, b);
    }
  }
}
