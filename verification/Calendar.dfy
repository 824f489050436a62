/**
 The months the limits go by: the first of a South African month, at
 midnight there, in the Gregorian calendar.
 */
module Calendar {
  import opened Schema
  import opened Limits

  // Days from the first of January of the year 1 to the first of January 1970.
  const EPOCH: int := 719_162

  predicate IsLeap(year: int) {
    year % 4 == 0 && (year % 100 != 0 || year % 400 == 0)
  }

  function DaysIn(year: int, month: nat): nat
    requires 1 <= month <= 12
  {
    match month
    case 2 => if IsLeap(year) then 29 else 28
    case 4 => 30
    case 6 => 30
    case 9 => 30
    case 11 => 30
    case _ => 31
  }

  /** The day, counted from 1970, on which a year begins. */
  function YearFirst(year: int): int {
    var y := year - 1;
    365 * y + y / 4 - y / 100 + y / 400 - EPOCH
  }

  function DaysBefore(year: int, month: nat): nat
    requires 1 <= month <= 12
  {
    if month == 1 then 0 else DaysBefore(year, month - 1) + DaysIn(year, month - 1)
  }

  /** Months counted from the start of the year 0: the day on which one begins. */
  function MonthFirst(k: int): int {
    YearFirst(k / 12) + DaysBefore(k / 12, k % 12 + 1)
  }

  /** Years, and so months, follow one another without a gap or an overlap. */
  lemma YearsFollow(year: int)
    ensures YearFirst(year + 1) == YearFirst(year) + (if IsLeap(year) then 366 else 365)
    ensures DaysBefore(year, 12) + DaysIn(year, 12) == if IsLeap(year) then 366 else 365
  {
    QuotientSteps(year - 1);
    DaysOfAYear(year);
  }

  lemma QuotientSteps(y: int)
    ensures (y + 1) / 4 == y / 4 + (if (y + 1) % 4 == 0 then 1 else 0)
    ensures (y + 1) / 100 == y / 100 + (if (y + 1) % 100 == 0 then 1 else 0)
    ensures (y + 1) / 400 == y / 400 + (if (y + 1) % 400 == 0 then 1 else 0)
    ensures (y + 1) % 400 == 0 ==> (y + 1) % 100 == 0
    ensures (y + 1) % 100 == 0 ==> (y + 1) % 4 == 0
  {
  }

  lemma DaysOfAYear(year: int)
    ensures DaysBefore(year, 2) == 31 && DaysBefore(year, 12) == if IsLeap(year) then 335 else 334
    ensures DaysBefore(year, 3) == if IsLeap(year) then 60 else 59
  {
    var leap := if IsLeap(year) then 1 else 0;
    assert DaysBefore(year, 2) == 31;
    assert DaysBefore(year, 3) == 59 + leap;
    assert DaysBefore(year, 4) == 90 + leap;
    assert DaysBefore(year, 5) == 120 + leap;
    assert DaysBefore(year, 6) == 151 + leap;
    assert DaysBefore(year, 7) == 181 + leap;
    assert DaysBefore(year, 8) == 212 + leap;
    assert DaysBefore(year, 9) == 243 + leap;
    assert DaysBefore(year, 10) == 273 + leap;
    assert DaysBefore(year, 11) == 304 + leap;
  }

  lemma MonthsFollow(k: int)
    ensures MonthFirst(k + 1) == MonthFirst(k) + DaysIn(k / 12, k % 12 + 1)
    ensures 28 <= DaysIn(k / 12, k % 12 + 1) <= 31
  {
    if k % 12 == 11 {
      assert (k + 1) / 12 == k / 12 + 1 && (k + 1) % 12 == 0;
      YearsFollow(k / 12);
    } else {
      assert (k + 1) / 12 == k / 12 && (k + 1) % 12 == k % 12 + 1;
    }
    hide YearFirst;
  }

  lemma {:induction false} MonthsAscend(j: int, k: int)
    requires j <= k
    ensures MonthFirst(j) + 28 * (k - j) <= MonthFirst(k) <= MonthFirst(j) + 31 * (k - j)
    decreases k - j
  {
    if j < k {
      hide MonthFirst;
      MonthsAscend(j, k - 1);
      MonthsFollow(k - 1);
    }
  }

  /** The month a day falls in. */
  function MonthOf(day: int): (k: int)
    ensures MonthFirst(k) <= day < MonthFirst(k + 1)
  {
    hide MonthFirst;
    Advance(NoLaterMonth(day), day)
  }

  /** The first month of a run of months that ends after the day; it does not begin after it. */
  function Advance(k: int, day: int): (month: int)
    requires MonthFirst(k) <= day
    ensures MonthFirst(month) <= day < MonthFirst(month + 1)
    decreases day - MonthFirst(k)
  {
    hide MonthFirst;
    if day < MonthFirst(k + 1) then k
    else
      MonthsFollow(k);
      Advance(k + 1, day)
  }

  /** A month that surely does not begin after the day. */
  function NoLaterMonth(day: int): (k: int)
    ensures MonthFirst(k) <= day
  {
    if day >= MonthFirst(0) then 0
    else
      var k := (day - MonthFirst(0)) / 28;
      MonthsAscend(k, 0);
      k
  }

  /** A day falls in one month only. */
  lemma MonthIsUnique(j: int, k: int, day: int)
    requires MonthFirst(j) <= day < MonthFirst(j + 1) && MonthFirst(k) <= day < MonthFirst(k + 1)
    ensures j == k
  {
    hide MonthFirst;
    if j < k {
      MonthsAscend(j + 1, k);
    }
    if k < j {
      MonthsAscend(k + 1, j);
    }
  }

  /** month_start: the same midnight, on the first of its month. */
  function FirstOfMonth(midnight: Instant): Instant {
    MonthFirst(MonthOf((midnight + 7_200) / 86_400)) * 86_400 - 7_200
  }

  lemma LaterDaysFallInLaterMonths(d: int, e: int)
    requires d <= e
    ensures MonthFirst(MonthOf(d)) <= MonthFirst(MonthOf(e))
  {
    hide MonthFirst, MonthOf;
    if MonthOf(e) < MonthOf(d) {
      MonthsAscend(MonthOf(e) + 1, MonthOf(d));
    } else {
      MonthsAscend(MonthOf(d), MonthOf(e));
    }
  }

  /** With these months a policy is a calendar, as the theorems about limits ask. */
  lemma MonthsMakeACalendar(p: Policy)
    requires forall m: Instant {:trigger p.monthStart(m)} :: p.monthStart(m) == FirstOfMonth(m)
    ensures IsCalendar(p)
  {
    hide MonthFirst, MonthOf;
    forall m: Instant
      ensures p.monthStart(m) <= m
    {
      assert p.monthStart(m) == FirstOfMonth(m);
    }
    forall d, e: Instant | d <= e
      ensures p.monthStart(d) <= p.monthStart(e)
    {
      assert p.monthStart(d) == FirstOfMonth(d) && p.monthStart(e) == FirstOfMonth(e);
      LaterDaysFallInLaterMonths((d + 7_200) / 86_400, (e + 7_200) / 86_400);
    }
  }

  /** The month's first midnight is exactly that of the one month the midnight falls in. */
  lemma FirstOfMonthExactly(midnight: Instant, day: int, k: int)
    requires midnight == day * 86_400 - 7_200 && MonthFirst(k) <= day < MonthFirst(k + 1)
    ensures FirstOfMonth(midnight) == MonthFirst(k) * 86_400 - 7_200
  {
    hide MonthFirst, MonthOf;
    MonthIsUnique(MonthOf(day), k, day);
    assert (midnight + 7_200) / 86_400 == day;
  }

  /** A month is at most 31 days: its window opens at a midnight and never reaches further back than that. */
  lemma MonthsAreShort(midnight: Instant)
    requires (midnight + 7_200) % 86_400 == 0
    ensures (FirstOfMonth(midnight) + 7_200) % 86_400 == 0
    ensures FirstOfMonth(midnight) <= midnight < FirstOfMonth(midnight) + 31 * 86_400
  {
    hide MonthFirst, MonthOf, FirstOfMonth, DaysIn;
    var day := (midnight + 7_200) / 86_400;
    var k := MonthOf(day);
    MonthsFollow(k);
    FirstOfMonthExactly(midnight, day, k);
    WholeDays(MonthFirst(k));
  }

  lemma WholeDays(days: int)
    ensures (days * 86_400 - 7_200 + 7_200) % 86_400 == 0
  {
  }

  lemma FebruaryAndMarch2024()
    ensures MonthFirst(24_289) == 19_754 && MonthFirst(24_290) == 19_783 && MonthFirst(24_291) == 19_814
  {
    YearBegins2024();
    DaysOfAYear(2024);
    MonthOfAYear(2024, 1);
    MonthOfAYear(2024, 2);
    MonthsFollow(24_290);
    hide MonthFirst, YearFirst, DaysBefore;
  }

  lemma YearBegins2024()
    ensures YearFirst(2024) == 19_723
  {
  }

  lemma MonthOfAYear(year: int, m: nat)
    requires m < 12
    ensures MonthFirst(12 * year + m) == YearFirst(year) + DaysBefore(year, m + 1)
  {
    assert (12 * year + m) / 12 == year && (12 * year + m) % 12 == m;
    hide YearFirst, DaysBefore;
  }

  /** The last of February 2024, a leap year, belongs to the month that began on the first; the next day does not. */
  lemma LeapFebruary()
    ensures FirstOfMonth(1_709_157_600) == 1_706_738_400
    ensures FirstOfMonth(1_709_244_000) == 1_709_244_000
  {
    hide MonthFirst, MonthOf, FirstOfMonth;
    FebruaryAndMarch2024();
    FirstOfMonthExactly(1_709_157_600, 19_782, 24_289);
    FirstOfMonthExactly(1_709_244_000, 19_783, 24_290);
  }
}
