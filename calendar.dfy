/**
 * The part of the ECMAScript `Date` object that the working-day enumeration relies on,
 * as integer arithmetic on the proleptic Gregorian calendar: the constructor
 * `new Date(year, monthIndex, 1)` with its month roll-over, `getMonth()`, `getDay()`,
 * `getDate()` and the one-day step `setDate(getDate() + 1)`.
 *
 * Dates are local calendar dates at midnight; time zones and daylight saving are not modelled.
 */
module Calendar {

  /** A calendar date. `month` is 1-based (January is 1); `GetMonth` gives the 0-based index. */
  datatype Date = Date(year: int, month: int, day: int)

  predicate IsLeapYear(y: int) {
    y % 4 == 0 && (y % 100 != 0 || y % 400 == 0)
  }

  function DaysInYear(y: int): int {
    if IsLeapYear(y) then 366 else 365
  }

  function DaysInMonth(y: int, m: int): (n: int)
    requires 1 <= m <= 12
    ensures 28 <= n <= 31
  {
    if m == 2 then (if IsLeapYear(y) then 29 else 28)
    else if m == 4 || m == 6 || m == 9 || m == 11 then 30
    else 31
  }

  /** A date that exists in the calendar. */
  predicate ValidDate(d: Date) {
    1 <= d.month <= 12 && 1 <= d.day <= DaysInMonth(d.year, d.month)
  }

  /** Number of days in the months of year `y` that come before month `m` (ECMAScript DayWithinYear). */
  function DaysBeforeMonth(y: int, m: int): int
    requires 1 <= m <= 12
  {
    var leap := if m > 2 && IsLeapYear(y) then 1 else 0;
    leap + (match m
      case 1 => 0 case 2 => 31 case 3 => 59 case 4 => 90 case 5 => 120 case 6 => 151
      case 7 => 181 case 8 => 212 case 9 => 243 case 10 => 273 case 11 => 304 case _ => 334)
  }

  /** Day number of January 1st of year `y`, counted from 1970-01-01 (ECMAScript DayFromYear). */
  function DayFromYear(y: int): int {
    365 * (y - 1970) + (y - 1969) / 4 - (y - 1901) / 100 + (y - 1601) / 400
  }

  /** Day number of `d`, counted from 1970-01-01 (day 0). */
  function DayNumber(d: Date): int
    requires 1 <= d.month <= 12
  {
    DayFromYear(d.year) + DaysBeforeMonth(d.year, d.month) + d.day - 1
  }

  /** `getDay()`: 0 is Sunday, 6 is Saturday; 1970-01-01 was a Thursday. */
  function GetDay(d: Date): (w: int)
    requires 1 <= d.month <= 12
    ensures 0 <= w < 7
  {
    (DayNumber(d) + 4) % 7
  }

  /** `getMonth()`: the 0-based month index, in 0..11 exactly for a month of the calendar. */
  function GetMonth(d: Date): (i: int)
    ensures 0 <= i < 12 <==> 1 <= d.month <= 12
  {
    d.month - 1
  }

  /** The year the `Date` constructor uses: two-digit years 0..99 stand for 1900..1999. */
  function FullYear(year: int): (y: int)
    ensures 0 <= year <= 99 ==> 1900 <= y <= 1999 && y % 100 == year
    ensures !(0 <= year <= 99) ==> y == year
    ensures !(0 <= y <= 99)
  {
    if 0 <= year <= 99 then 1900 + year else year
  }

  /**
   * `new Date(year, monthIndex, 1)`: a month index outside 0..11 rolls over into an
   * earlier or later year.
   */
  function FirstOfMonth(year: int, monthIndex: int): (d: Date)
    ensures ValidDate(d) && d.day == 1
    ensures 0 <= monthIndex < 12 ==> d == Date(FullYear(year), monthIndex + 1, 1)
    ensures !(0 <= monthIndex < 12) ==> GetMonth(d) != monthIndex
  {
    Date(FullYear(year) + monthIndex / 12, monthIndex % 12 + 1, 1)
  }

  /** `date.setDate(date.getDate() + 1)`: the next calendar day. */
  function NextDay(d: Date): (n: Date)
    requires ValidDate(d)
    ensures ValidDate(n)
    ensures d.day < DaysInMonth(d.year, d.month) <==> n.year == d.year && n.month == d.month
    ensures n.year == d.year && n.month == d.month ==> n.day == d.day + 1
    ensures n.day == 1 <==> d.day == DaysInMonth(d.year, d.month)
    ensures n.year == d.year + 1 <==> d.month == 12 && d.day == 31
  {
    if d.day < DaysInMonth(d.year, d.month) then Date(d.year, d.month, d.day + 1)
    else if d.month < 12 then Date(d.year, d.month + 1, 1)
    else Date(d.year + 1, 1, 1)
  }

  /** The cumulative month table agrees with the month lengths, through the end of the year. */
  lemma DaysBeforeMonthStep(y: int, m: int)
    requires 1 <= m <= 12
    ensures m < 12 ==> DaysBeforeMonth(y, m + 1) == DaysBeforeMonth(y, m) + DaysInMonth(y, m)
    ensures m == 12 ==> DaysBeforeMonth(y, m) + DaysInMonth(y, m) == DaysInYear(y)
  {
  }

  /** Leap days counted by `DayFromYear`: one more every fourth year ... */
  lemma QuadrennialStep(y: int)
    ensures (y - 1968) / 4 == (y - 1969) / 4 + (if y % 4 == 0 then 1 else 0)
  {
    var a, b := y / 4, y % 4;
    assert y - 1968 == 4 * (a - 492) + b;
    if b == 0 {
      assert y - 1969 == 4 * (a - 493) + 3;
    } else {
      assert y - 1969 == 4 * (a - 492) + (b - 1);
    }
  }

  /** ... one fewer every hundredth year ... */
  lemma CentennialStep(y: int)
    ensures (y - 1900) / 100 == (y - 1901) / 100 + (if y % 100 == 0 then 1 else 0)
  {
    var a, b := y / 100, y % 100;
    assert y - 1900 == 100 * (a - 19) + b;
    if b == 0 {
      assert y - 1901 == 100 * (a - 20) + 99;
    } else {
      assert y - 1901 == 100 * (a - 19) + (b - 1);
    }
  }

  /** ... and one more again every four hundredth year. */
  lemma QuadricentennialStep(y: int)
    ensures (y - 1600) / 400 == (y - 1601) / 400 + (if y % 400 == 0 then 1 else 0)
  {
    var a, b := y / 400, y % 400;
    assert y - 1600 == 400 * (a - 4) + b;
    if b == 0 {
      assert y - 1601 == 400 * (a - 5) + 399;
    } else {
      assert y - 1601 == 400 * (a - 4) + (b - 1);
    }
  }

  /** A multiple of 400 is a multiple of 100 ... */
  lemma CentennialOfQuadricentennial(y: int)
    requires y % 400 == 0
    ensures y % 100 == 0
  {
    assert y == 100 * (4 * (y / 400));
  }

  /** ... and a multiple of 100 is a multiple of 4. */
  lemma QuadrennialOfCentennial(y: int)
    requires y % 100 == 0
    ensures y % 4 == 0
  {
    assert y == 4 * (25 * (y / 100));
  }

  /** January 1st of the next year comes exactly one year's length of days later. */
  lemma {:induction false} DayFromYearStep(y: int)
    ensures DayFromYear(y + 1) == DayFromYear(y) + DaysInYear(y)
  {
    QuadrennialStep(y);
    CentennialStep(y);
    QuadricentennialStep(y);
    if y % 400 == 0 {
      CentennialOfQuadricentennial(y);
    }
    if y % 100 == 0 {
      QuadrennialOfCentennial(y);
    }
  }

  /** `setDate(getDate() + 1)` moves the date forward by exactly one day ... */
  lemma {:induction false} NextDayIsOneDayLater(d: Date)
    requires ValidDate(d)
    ensures DayNumber(NextDay(d)) == DayNumber(d) + 1
  {
    DaysBeforeMonthStep(d.year, d.month);
    if d.day == DaysInMonth(d.year, d.month) && d.month == 12 {
      DayFromYearStep(d.year);
    }
  }

  /** ... so the weekday advances by one, Saturday (6) wrapping to Sunday (0). */
  lemma {:induction false} NextDayWeekDay(d: Date)
    requires ValidDate(d)
    ensures GetDay(NextDay(d)) == (GetDay(d) + 1) % 7
  {
    NextDayIsOneDayLater(d);
    ModSevenShift(DayNumber(d) + 4, 1);
  }

  /** Adding `i` days to a weekday number advances it by `i` modulo 7. */
  lemma ModSevenShift(n: int, i: int)
    requires 0 <= i < 7
    ensures (n + i) % 7 == (n % 7 + i) % 7
  {
    var q, r := n / 7, n % 7;
    assert n + i == 7 * q + (r + i);
    if r + i >= 7 {
      assert n + i == 7 * (q + 1) + (r + i - 7);
    }
  }
}
