/** Days and months of data-generator/generate.py: `month_start` and `day_in_month`. A date is its
    proleptic Gregorian ordinal. */
module Calendar {
  import opened Arithmetic

  predicate IsLeap(year: nat) {
    year % 4 == 0 && (year % 100 != 0 || year % 400 == 0)
  }

  function DaysBeforeYear(year: nat): nat
    requires year > 0
  {
    var y := year - 1;
    365 * y + y / 4 - y / 100 + y / 400
  }

  const DAYS_BEFORE_MONTH: seq<nat> := [0, 31, 59, 90, 120, 151, 181, 212, 243, 273, 304, 334, 365]

  /** The first day of a month, January of `year` being month 1; month 13 is the next January. */
  function FirstOf(year: nat, month: nat): int
    requires year > 0 && 1 <= month <= 13
  {
    DaysBeforeYear(year) + DAYS_BEFORE_MONTH[month - 1] + (if month > 2 && IsLeap(year) then 1 else 0) + 1
  }

  lemma DivStep(x: nat, d: nat)
    requires x > 0 && d > 0
    ensures x / d == (x - 1) / d + if x % d == 0 then 1 else 0
  {
    var q, r := x / d, x % d;
    assert x == d * q + r;
    if r == 0 {
      QuotientIs(x - 1, d, q - 1, d - 1);
    } else {
      QuotientIs(x - 1, d, q, r - 1);
    }
  }

  lemma QuotientIs(x: int, d: nat, q: int, r: nat)
    requires d > 0 && r < d && x == d * q + r
    ensures x / d == q
  {
    var p := x / d;
    assert x == d * p + x % d;
    assert d * (p + 1) == d * p + d && d * (q + 1) == d * q + d;
    if p < q { MulLe(p + 1, q, d); }
    if p > q { MulLe(q + 1, p, d); }
  }

  lemma Multiples(year: nat)
    ensures year % 400 == 0 ==> year % 100 == 0
    ensures year % 100 == 0 ==> year % 4 == 0
  {
    if year % 100 == 0 {
      assert year == 4 * (25 * (year / 100));
    }
    if year % 400 == 0 {
      assert year == 100 * (4 * (year / 400));
    }
  }

  /** December ends where the next January begins: the leap-year rule and the day count agree. Day 1 is the
      first of January of year 1. */
  lemma YearsFollow(year: nat)
    requires year > 0
    ensures FirstOf(year, 13) == FirstOf(year + 1, 1) && FirstOf(1, 1) == 1
  {
    DivStep(year, 4);
    DivStep(year, 100);
    DivStep(year, 400);
    Multiples(year);
  }

  predicate IsMonthLength(days: int, year: nat, month: nat) {
    && (month == 2 ==> days == if IsLeap(year) then 29 else 28)
    && (month in {4, 6, 9, 11} ==> days == 30)
    && (month !in {2, 4, 6, 9, 11} ==> days == 31)
  }

  /** Thirty days have September, April, June and November. */
  lemma MonthLength(year: nat, month: nat)
    requires year > 0 && 1 <= month <= 12
    ensures IsMonthLength(FirstOf(year, month + 1) - FirstOf(year, month), year, month)
  {
  }

  const HISTORY_MONTHS: nat := 24

  /** 7 September 2026. */
  const AS_OF: int := FirstOf(2026, 9) + 6

  /** The window's first month: AS_OF less 730 days, the whole days in 24 months of 30.4375, falls in it. */
  const START_YEAR: nat := 2024
  const START_MONTH: nat := 9

  lemma WindowStart()
    ensures FirstOf(START_YEAR, START_MONTH) <= AS_OF - 730 < FirstOf(START_YEAR, START_MONTH + 1)
    ensures 730.0 <= 24.0 * 30.4375 < 731.0
  {
  }

  function MonthStart(index: nat): int {
    var month := START_MONTH + index;
    FirstOf(START_YEAR + (month - 1) / 12, (month - 1) % 12 + 1)
  }

  /** How many days `day_in_month` chooses from. */
  function Span(index: nat): nat {
    var end := if index + 1 < HISTORY_MONTHS then MonthStart(index + 1) else AS_OF + 1;
    Max(1, end - MonthStart(index))
  }

  function DayInMonth(index: nat, offset: nat): int {
    Min(AS_OF, MonthStart(index) + offset)
  }

  /** The months of the window follow each other without a gap, each as long as it is in the calendar. */
  lemma MonthStartStep(index: nat)
    ensures var month := START_MONTH + index;
            IsMonthLength(MonthStart(index + 1) - MonthStart(index), START_YEAR + (month - 1) / 12, (month - 1) % 12 + 1)
    ensures 28 <= MonthStart(index + 1) - MonthStart(index) <= 31
  {
    hide FirstOf, IsLeap;
    var month := START_MONTH + index;
    var year, m := START_YEAR + (month - 1) / 12, (month - 1) % 12 + 1;
    MonthLength(year, m);
    YearsFollow(year);
    if m == 12 {
      assert month % 12 == 0 && month / 12 == (month - 1) / 12 + 1;
    } else {
      assert month % 12 == (month - 1) % 12 + 1 && month / 12 == (month - 1) / 12;
    }
  }

  lemma {:induction false} MonthStartIncreases(i: nat, j: nat)
    requires i < j
    ensures MonthStart(i) < MonthStart(j)
  {
    hide MonthStart;
    MonthStartStep(j - 1);
    if i < j - 1 {
      MonthStartIncreases(i, j - 1);
    }
  }

  /** The last month of the window has begun by the as-of date. */
  lemma WindowEnd()
    ensures MonthStart(HISTORY_MONTHS - 1) <= AS_OF
  {
    assert MonthStart(23) == FirstOf(2026, 8);
  }

  /** Later months give later days, whatever is drawn, and no day lies outside the window. */
  lemma DaysIncrease(i: nat, offset: nat, j: nat, later: nat)
    requires i < j < HISTORY_MONTHS && offset < Span(i) && later < Span(j)
    ensures MonthStart(0) <= DayInMonth(i, offset) < DayInMonth(j, later) <= AS_OF
  {
    hide MonthStart;
    WindowEnd();
    MonthStartStep(i);
    if i > 0 { MonthStartIncreases(0, i); }
    if i + 1 < j { MonthStartIncreases(i + 1, j); }
    if j < HISTORY_MONTHS - 1 { MonthStartIncreases(j, HISTORY_MONTHS - 1); }
  }

  /** What is drawn for a month is a day of that month, for the last one any day from its first to the as-of
      date, and each such day can be drawn. */
  lemma DayOfItsMonth(index: nat, day: int)
    requires index < HISTORY_MONTHS
    ensures MonthStart(index) <= day <= AS_OF && (index + 1 < HISTORY_MONTHS ==> day < MonthStart(index + 1)) <==>
            exists offset: nat :: offset < Span(index) && day == DayInMonth(index, offset)
  {
    hide MonthStart;
    WindowEnd();
    MonthStartStep(index);
    if index < HISTORY_MONTHS - 1 { MonthStartIncreases(index, HISTORY_MONTHS - 1); }
    if index + 1 < HISTORY_MONTHS - 1 { MonthStartIncreases(index + 1, HISTORY_MONTHS - 1); }
    if MonthStart(index) <= day <= AS_OF && (index + 1 < HISTORY_MONTHS ==> day < MonthStart(index + 1)) {
      var offset: nat := day - MonthStart(index);
      assert offset < Span(index) && day == DayInMonth(index, offset);
    }
  }

}
