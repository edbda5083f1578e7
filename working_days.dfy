/**
 * `getWorkingDays(year, month)`: the Monday-to-Friday dates of a month, in calendar order.
 *
 * The method walks a date cursor from the 1st of the month, one day at a time, until
 * `getMonth()` no longer names the requested month; it is proved equal to the
 * specification function `WorkingDaysOf`, whose properties are the lemmas below.
 */
module WorkingDays {
  import opened Calendar

  /** A `getDay()` number other than Sunday (0) and Saturday (6). */
  predicate IsWeekdayNumber(w: int) {
    w != 0 && w != 6
  }

  /** A date whose weekday is Monday to Friday. */
  predicate IsWorkingDay(d: Date)
    requires 1 <= d.month <= 12
  {
    IsWeekdayNumber(GetDay(d))
  }

  /** The working days among days 1..n of month `m` of year `y`, in calendar order. */
  function WorkingDaysThrough(y: int, m: int, n: nat): seq<Date>
    requires 1 <= m <= 12
  {
    if n == 0 then [] else WorkingDaysThrough(y, m, n - 1) + Today(y, m, n)
  }

  /** Day n of the month, if it is a working day. */
  function Today(y: int, m: int, n: int): seq<Date>
    requires 1 <= m <= 12
  {
    if IsWorkingDay(Date(y, m, n)) then [Date(y, m, n)] else []
  }

  /** Dates in strictly ascending order of day of month. */
  predicate AscendingByDay(ds: seq<Date>) {
    forall i, j :: 0 <= i < j < |ds| ==> ds[i].day < ds[j].day
  }

  /**
   * What `getWorkingDays(year, month)` returns. A month outside 1..12 makes the constructor
   * roll over into another month, which fails the loop guard at once: no dates.
   */
  function WorkingDaysOf(year: int, month: int): seq<Date> {
    if 1 <= month <= 12 then
      var y := FullYear(year);
      WorkingDaysThrough(y, month, DaysInMonth(y, month))
    else []
  }

  method GetWorkingDays(year: int, month: int) returns (workingDays: seq<Date>)
    ensures workingDays == WorkingDaysOf(year, month)
  {
    workingDays := [];
    var date := FirstOfMonth(year, month - 1);
    ghost var inMonth := GetMonth(date) == month - 1;
    while GetMonth(date) == month - 1
      invariant ValidDate(date)
      invariant inMonth == (GetMonth(date) == month - 1)
      invariant inMonth ==> 1 <= month <= 12 && date.year == FullYear(year)
      invariant inMonth ==> workingDays == WorkingDaysThrough(date.year, month, date.day - 1)
      invariant !inMonth ==> workingDays == WorkingDaysOf(year, month)
      decreases if inMonth then DaysInMonth(date.year, date.month) - date.day + 1 else 0
    {
      var day := GetDay(date);
      if day != 0 && day != 6 {
        workingDays := workingDays + [date];
      }
      StepThroughMonth(year, month, date, workingDays);
      date := NextDay(date);
      inMonth := GetMonth(date) == month - 1;
    }
  }

  /**
   * One iteration of the loop: once day `date.day` has been looked at, the cursor either moves
   * to the next day of the month or leaves the month with every working day collected.
   */
  lemma StepThroughMonth(year: int, month: int, date: Date, workingDays: seq<Date>)
    requires ValidDate(date) && 1 <= month <= 12
    requires date == Date(FullYear(year), month, date.day)
    requires workingDays == WorkingDaysThrough(date.year, month, date.day - 1) + Today(date.year, month, date.day)
    ensures var next := NextDay(date);
      if GetMonth(next) == month - 1 then
        next == Date(date.year, month, date.day + 1) &&
        workingDays == WorkingDaysThrough(next.year, month, next.day - 1)
      else
        workingDays == WorkingDaysOf(year, month)
  {
  }

  // ---------------------------------------------------------------------------
  // Properties of the enumeration

  lemma {:induction false} WorkingDaysThroughMembers(y: int, m: int, n: nat, d: Date)
    requires 1 <= m <= 12
    ensures d in WorkingDaysThrough(y, m, n) <==>
      d.year == y && d.month == m && 1 <= d.day <= n && IsWorkingDay(d)
  {
    if n > 0 {
      WorkingDaysThroughMembers(y, m, n - 1, d);
    }
  }

  lemma {:induction false} WorkingDaysThroughAscending(y: int, m: int, n: nat)
    requires 1 <= m <= 12
    ensures AscendingByDay(WorkingDaysThrough(y, m, n))
  {
    if n > 0 {
      var p := WorkingDaysThrough(y, m, n - 1);
      WorkingDaysThroughAscending(y, m, n - 1);
      forall i | 0 <= i < |p|
        ensures p[i].day < n
      {
        WorkingDaysThroughMembers(y, m, n - 1, p[i]);
      }
      if IsWorkingDay(Date(y, m, n)) {
        var r := p + [Date(y, m, n)];
        assert WorkingDaysThrough(y, m, n) == r;
        forall i, j | 0 <= i < j < |r|
          ensures r[i].day < r[j].day
        {
          assert r[i] == p[i];
          if j < |p| {
            assert r[j] == p[j];
          }
        }
      } else {
        assert WorkingDaysThrough(y, m, n) == p;
      }
    }
  }

  /**
   * A date is returned exactly when it is a Monday-to-Friday date of the requested month
   * (of the year the `Date` constructor reads): no weekend day, no day of another month,
   * and no date at all for a month outside 1..12.
   */
  lemma WorkingDaysOfMembers(year: int, month: int, d: Date)
    ensures d in WorkingDaysOf(year, month) <==>
      1 <= month <= 12 && d.year == FullYear(year) && d.month == month &&
      1 <= d.day <= DaysInMonth(d.year, month) && 1 <= GetDay(d) <= 5
  {
    if 1 <= month <= 12 {
      WorkingDaysThroughMembers(FullYear(year), month, DaysInMonth(FullYear(year), month), d);
    }
  }

  /** The dates come in strictly ascending order of day of month, so none is repeated. */
  lemma WorkingDaysOfAscending(year: int, month: int)
    ensures var r := WorkingDaysOf(year, month);
      forall i, j :: 0 <= i < j < |r| ==> r[i].day < r[j].day && r[i] != r[j]
  {
    if 1 <= month <= 12 {
      WorkingDaysThroughAscending(FullYear(year), month, DaysInMonth(FullYear(year), month));
    }
  }

  /** A month index out of range yields no dates. */
  lemma OutOfRangeMonthIsEmpty(year: int, month: int)
    requires month < 1 || month > 12
    ensures WorkingDaysOf(year, month) == []
  {
  }

  // ---------------------------------------------------------------------------
  // How many working days a month has

  /** Day k of a month falls on the weekday i days after day k - i. */
  lemma WeekDayAfter(y: int, m: int, k: int, i: int)
    requires 1 <= m <= 12 && 0 <= i < 7
    ensures GetDay(Date(y, m, k + i)) == (GetDay(Date(y, m, k)) + i) % 7
  {
    assert DayNumber(Date(y, m, k + i)) == DayNumber(Date(y, m, k)) + i;
    ModSevenShift(DayNumber(Date(y, m, k)) + 4, i);
  }

  /** The days 0..6 after any weekday cover the whole week: five of them are working days. */
  lemma WeekHasFiveWorkingDays(w: int)
    requires 0 <= w < 7
    ensures Working((w + 0) % 7) + Working((w + 1) % 7) + Working((w + 2) % 7) + Working((w + 3) % 7)
          + Working((w + 4) % 7) + Working((w + 5) % 7) + Working((w + 6) % 7) == 5
  {
  }

  /** One for a working weekday number, zero for Saturday and Sunday. */
  function Working(w: int): nat {
    if IsWeekdayNumber(w) then 1 else 0
  }

  lemma TodayCount(y: int, m: int, k: int, i: int)
    requires 1 <= m <= 12 && 0 <= i < 7
    ensures |Today(y, m, k + i)| == Working((GetDay(Date(y, m, k)) + i) % 7)
  {
    WeekDayAfter(y, m, k, i);
  }

  /** Any seven consecutive days of a month hold exactly five working days. */
  lemma {:induction false} SevenConsecutiveDays(y: int, m: int, n: nat)
    requires 1 <= m <= 12 && n >= 7
    ensures |WorkingDaysThrough(y, m, n)| == |WorkingDaysThrough(y, m, n - 7)| + 5
  {
    var k := n - 6;
    WeekHasFiveWorkingDays(GetDay(Date(y, m, k)));
    TodayCount(y, m, k, 0);
    TodayCount(y, m, k, 1);
    TodayCount(y, m, k, 2);
    TodayCount(y, m, k, 3);
    TodayCount(y, m, k, 4);
    TodayCount(y, m, k, 5);
    TodayCount(y, m, k, 6);
    assert WorkingDaysThrough(y, m, k + 6) == WorkingDaysThrough(y, m, k + 5) + Today(y, m, k + 6);
    assert WorkingDaysThrough(y, m, k + 5) == WorkingDaysThrough(y, m, k + 4) + Today(y, m, k + 5);
    assert WorkingDaysThrough(y, m, k + 4) == WorkingDaysThrough(y, m, k + 3) + Today(y, m, k + 4);
    assert WorkingDaysThrough(y, m, k + 3) == WorkingDaysThrough(y, m, k + 2) + Today(y, m, k + 3);
    assert WorkingDaysThrough(y, m, k + 2) == WorkingDaysThrough(y, m, k + 1) + Today(y, m, k + 2);
    assert WorkingDaysThrough(y, m, k + 1) == WorkingDaysThrough(y, m, k) + Today(y, m, k + 1);
    assert WorkingDaysThrough(y, m, k) == WorkingDaysThrough(y, m, k - 1) + Today(y, m, k + 0);
  }

  lemma {:induction false} WorkingDaysThroughLength(y: int, m: int, n: nat)
    requires 1 <= m <= 12
    ensures |WorkingDaysThrough(y, m, n)| <= n
  {
    if n > 0 {
      WorkingDaysThroughLength(y, m, n - 1);
    }
  }

  /** Every month has between 20 and 23 working days. */
  lemma WorkingDaysPerMonth(year: int, month: int)
    requires 1 <= month <= 12
    ensures 20 <= |WorkingDaysOf(year, month)| <= 23
  {
    var y := FullYear(year);
    var n := DaysInMonth(y, month);
    SevenConsecutiveDays(y, month, n);
    SevenConsecutiveDays(y, month, n - 7);
    SevenConsecutiveDays(y, month, n - 14);
    SevenConsecutiveDays(y, month, n - 21);
    WorkingDaysThroughLength(y, month, n - 28);
  }

  // ---------------------------------------------------------------------------
  // Two months worked out

  lemma {:induction false} WorkingDaysThroughPrefix(y: int, m: int, k: nat, n: nat)
    requires 1 <= m <= 12 && k <= n
    ensures WorkingDaysThrough(y, m, k) <= WorkingDaysThrough(y, m, n)
  {
    if k < n {
      WorkingDaysThroughPrefix(y, m, k, n - 1);
    }
  }

  /** February 2024 (a leap year; the 1st is a Thursday) has 21 working days. */
  lemma February2024()
    ensures |WorkingDaysOf(2024, 2)| == 21
  {
    assert GetDay(Date(2024, 2, 1)) == 4;
    assert WorkingDaysThrough(2024, 2, 1) == [Date(2024, 2, 1)];
    SevenConsecutiveDays(2024, 2, 29);
    SevenConsecutiveDays(2024, 2, 22);
    SevenConsecutiveDays(2024, 2, 15);
    SevenConsecutiveDays(2024, 2, 8);
  }

  /** June 2024 (the 1st is a Saturday) has 20 working days, from the 3rd to the 28th. */
  lemma June2024()
    ensures var r := WorkingDaysOf(2024, 6);
      |r| == 20 && r[0] == Date(2024, 6, 3) && r[|r| - 1] == Date(2024, 6, 28)
  {
    assert GetDay(Date(2024, 6, 1)) == 6;
    WeekDayAfter(2024, 6, 1, 1);
    WeekDayAfter(2024, 6, 1, 2);
    WeekDayAfter(2024, 6, 28, 1);
    WeekDayAfter(2024, 6, 28, 2);
    assert GetDay(Date(2024, 6, 28)) == 5;
    assert WorkingDaysThrough(2024, 6, 2) == [];
    assert WorkingDaysThrough(2024, 6, 3) == [Date(2024, 6, 3)];
    SevenConsecutiveDays(2024, 6, 30);
    SevenConsecutiveDays(2024, 6, 23);
    SevenConsecutiveDays(2024, 6, 16);
    SevenConsecutiveDays(2024, 6, 9);
    WorkingDaysThroughPrefix(2024, 6, 3, 30);
    assert WorkingDaysThrough(2024, 6, 30) == WorkingDaysThrough(2024, 6, 28);
  }
}
