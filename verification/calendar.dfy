/** The proleptic Gregorian calendar of ECMA-262, section 21.4.1, on day numbers from 1 January 1970. */
module Calendar {

  const MINUTES_PER_DAY := 1440

  predicate InLeapYear(y: int) {
    y % 4 == 0 && (y % 100 != 0 || y % 400 == 0)
  }

  function DaysInYear(y: int): int {
    if InLeapYear(y) then 366 else 365
  }

  /** Day number of 1 January. */
  function DayFromYear(y: int): int {
    365 * (y - 1970) + (y - 1969) / 4 - (y - 1901) / 100 + (y - 1601) / 400
  }

  function DaysInMonth(month: int, leap: bool): int {
    if month == 2 then (if leap then 29 else 28)
    else if month in {4, 6, 9, 11} then 30
    else 31
  }

  /** Days of the year before this month; 13 stands for its end. */
  function MonthStart(month: int, leap: bool): int
    requires 1 <= month <= 13
    decreases month
  {
    if month == 1 then 0 else MonthStart(month - 1, leap) + DaysInMonth(month - 1, leap)
  }

  predicate ValidDate(y: int, month: int, date: int) {
    1 <= month <= 12 && 1 <= date <= DaysInMonth(month, InLeapYear(y))
  }

  function DayNumber(y: int, month: int, date: int): int
    requires ValidDate(y, month, date)
  {
    DayFromYear(y) + MonthStart(month, InLeapYear(y)) + date - 1
  }

  lemma NextYear(y: int)
    ensures DayFromYear(y + 1) == DayFromYear(y) + DaysInYear(y)
  {
    var q4, q100, q400 := y / 4, y / 100, y / 400;
    assert (y + 1 - 1969) / 4 == (y - 1968) / 4 == q4 - 492;
    assert (y - 1969) / 4 == if y % 4 == 0 then q4 - 493 else q4 - 492;
    assert (y + 1 - 1901) / 100 == (y - 1900) / 100 == q100 - 19;
    assert (y - 1901) / 100 == if y % 100 == 0 then q100 - 20 else q100 - 19;
    assert (y + 1 - 1601) / 400 == (y - 1600) / 400 == q400 - 4;
    assert (y - 1601) / 400 == if y % 400 == 0 then q400 - 5 else q400 - 4;
  }

  lemma {:induction false} LaterYear(y: int, n: nat)
    ensures DayFromYear(y) + 365 * n <= DayFromYear(y + n) <= DayFromYear(y) + 366 * n
    decreases n
  {
    if n > 0 {
      LaterYear(y, n - 1);
      NextYear(y + n - 1);
    }
  }

  /** The year of a day: the largest year that starts no later. */
  function YearFrom(day: int, y: int): (year: int)
    requires DayFromYear(y) <= day
    ensures DayFromYear(year) <= day < DayFromYear(year + 1)
    decreases day - DayFromYear(y)
  {
    NextYear(y);
    if day < DayFromYear(y + 1) then y else YearFrom(day, y + 1)
  }

  function YearOf(day: int): (year: int)
    ensures DayFromYear(year) <= day < DayFromYear(year + 1)
  {
    if day >= 0 then YearFrom(day, 1970)
    else
      LaterYear(1970 + day, -day);
      YearFrom(day, 1970 + day)
  }

  lemma YearsGrow(a: int, b: int)
    ensures a <= b ==> DayFromYear(a) <= DayFromYear(b)
  {
    hide *;
    if a <= b {
      LaterYear(a, b - a);
    }
  }

  lemma YearUnique(day: int, y: int)
    requires DayFromYear(y) <= day < DayFromYear(y + 1)
    ensures YearOf(day) == y
  {
    hide DayFromYear;
    YearsGrow(YearOf(day) + 1, y);
    YearsGrow(y + 1, YearOf(day));
  }

  function MonthFrom(dayInYear: int, leap: bool, month: int): (m: int)
    requires 1 <= month <= 12 && MonthStart(month, leap) <= dayInYear < MonthStart(13, leap)
    ensures 1 <= m <= 12 && MonthStart(m, leap) <= dayInYear < MonthStart(m + 1, leap)
    decreases 12 - month
  {
    if dayInYear < MonthStart(month + 1, leap) then month else MonthFrom(dayInYear, leap, month + 1)
  }

  lemma YearLength(y: int)
    ensures MonthStart(13, InLeapYear(y)) == DaysInYear(y)
  {
    var leap := InLeapYear(y);
    assert MonthStart(4, leap) == 59 + (if leap then 1 else 0) + 31;
    assert MonthStart(7, leap) == MonthStart(4, leap) + 91;
    assert MonthStart(10, leap) == MonthStart(7, leap) + 92;
    assert MonthStart(13, leap) == MonthStart(10, leap) + 92;
  }

  function MonthOf(day: int): (month: int)
    ensures 1 <= month <= 12
    ensures var y := YearOf(day);
            MonthStart(month, InLeapYear(y)) <= day - DayFromYear(y) < MonthStart(month + 1, InLeapYear(y))
  {
    var y := YearOf(day);
    NextYear(y);
    YearLength(y);
    MonthFrom(day - DayFromYear(y), InLeapYear(y), 1)
  }

  function DateOf(day: int): (date: int)
    ensures 1 <= date <= DaysInMonth(MonthOf(day), InLeapYear(YearOf(day)))
  {
    var y := YearOf(day);
    day - DayFromYear(y) - MonthStart(MonthOf(day), InLeapYear(y)) + 1
  }

  /** Sunday is 0; 1 January 1970 was a Thursday. */
  function WeekDay(day: int): (w: int)
    ensures 0 <= w < 7
  {
    (day + 4) % 7
  }

  lemma {:induction false} MonthsGrow(a: int, b: int, leap: bool)
    requires 1 <= a <= 13 && 1 <= b <= 13
    ensures a <= b ==> MonthStart(a, leap) <= MonthStart(b, leap)
    decreases b - a
  {
    if a < b {
      MonthsGrow(a, b - 1, leap);
    }
  }

  lemma MonthUnique(dayInYear: int, leap: bool, m: int, month: int)
    requires 1 <= m <= 12 && MonthStart(m, leap) <= dayInYear < MonthStart(m + 1, leap)
    requires 1 <= month <= 12 && MonthStart(month, leap) <= dayInYear < MonthStart(month + 1, leap)
    ensures m == month
  {
    hide MonthStart;
    MonthsGrow(m + 1, month, leap);
    MonthsGrow(month + 1, m, leap);
  }

  /** A date is read back from its day number. */
  lemma DateRoundTrip(y: int, month: int, date: int)
    requires ValidDate(y, month, date)
    ensures var day := DayNumber(y, month, date); YearOf(day) == y && MonthOf(day) == month && DateOf(day) == date
  {
    hide DayFromYear, InLeapYear;
    var leap, day := InLeapYear(y), DayNumber(y, month, date);
    MonthsGrow(1, month, leap);
    MonthsGrow(month + 1, 13, leap);
    YearLength(y);
    NextYear(y);
    YearUnique(day, y);
    MonthUnique(day - DayFromYear(y), leap, MonthOf(day), month);
  }

  /** Every day number is the day number of its date. */
  lemma DayRoundTrip(day: int)
    ensures ValidDate(YearOf(day), MonthOf(day), DateOf(day)) && DayNumber(YearOf(day), MonthOf(day), DateOf(day)) == day
  {
  }

  const THURSDAY := 4

  /** The days of the week go round, and 1 January 1970 was a Thursday. */
  lemma WeekDaysGoRound(day: int)
    ensures WeekDay(DayNumber(1970, 1, 1)) == THURSDAY && WeekDay(day + 7) == WeekDay(day)
    ensures WeekDay(day + 1) == if WeekDay(day) == 6 then 0 else WeekDay(day) + 1
  {
  }

  /** Thirty days has September, April, June and November. */
  lemma MonthLengths(leap: bool)
    ensures DaysInMonth(1, leap) == DaysInMonth(3, leap) == DaysInMonth(5, leap) == DaysInMonth(7, leap) == 31
    ensures DaysInMonth(8, leap) == DaysInMonth(10, leap) == DaysInMonth(12, leap) == 31
    ensures DaysInMonth(4, leap) == DaysInMonth(6, leap) == DaysInMonth(9, leap) == DaysInMonth(11, leap) == 30
    ensures DaysInMonth(2, true) == 29 && DaysInMonth(2, false) == 28
  {
  }
}
