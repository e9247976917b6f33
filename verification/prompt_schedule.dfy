/** Cron schedules: parsing the five fields, matching a minute, and searching the next matching one. */
module PromptSchedule {
  import opened Errors
  import opened Wrappers
  import opened Calendar
  import opened Sets

  const MAX_CRON_SEARCH_MINUTES := 8 * 366 * 24 * 60
  const MINUTE_MS := 60000

  // ---------------------------------------------------------------- fields

  /** What stands before the slash of a segment, and after it as a JavaScript number. */
  datatype Base = Star | Range(from: int, to: int) | Value(n: int) | Malformed
  datatype StepText = NoStep | StepNumber(n: int) | NotInteger
  datatype Segment = Segment(base: Base, step: StepText, extra: bool)

  function StepOf(s: Segment): int {
    if s.step.StepNumber? then s.step.n else 1
  }

  function Start(s: Segment, minimum: int): int {
    match s.base
    case Range(from, _) => from
    case Value(n) => n
    case _ => minimum
  }

  function End(s: Segment, maximum: int): int {
    match s.base
    case Range(_, to) => to
    case Value(n) => if s.step.NoStep? then n else maximum
    case _ => maximum
  }

  predicate ValidSegment(s: Segment, minimum: int, maximum: int) {
    && !s.extra && !s.base.Malformed? && !s.step.NotInteger? && 1 <= StepOf(s) <= maximum - minimum + 1
    && minimum <= Start(s, minimum) <= End(s, maximum) <= maximum
  }

  predicate ValidField(field: seq<Segment>, minimum: int, maximum: int) {
    field != [] && forall i :: 0 <= i < |field| ==> ValidSegment(field[i], minimum, maximum)
  }

  predicate OnStep(start: int, step: int, n: int)
    requires step >= 1
  {
    (n - start) % step == 0
  }

  /** The segment steps onto this number. */
  predicate Steps(s: Segment, minimum: int, maximum: int, n: int) {
    StepOf(s) >= 1 && Start(s, minimum) <= n <= End(s, maximum) && OnStep(Start(s, minimum), StepOf(s), n)
  }

  function Folded(n: int, sundaySeven: bool): int {
    if sundaySeven && n == 7 then 0 else n
  }

  ghost predicate SegmentSelects(s: Segment, minimum: int, maximum: int, sundaySeven: bool, v: int) {
    exists n :: Steps(s, minimum, maximum, n) && Folded(n, sundaySeven) == v
  }

  /** The numbers a field stands for. */
  ghost predicate Selects(field: seq<Segment>, minimum: int, maximum: int, sundaySeven: bool, v: int) {
    exists i :: 0 <= i < |field| && SegmentSelects(field[i], minimum, maximum, sundaySeven, v)
  }

  method ParseCronField(field: seq<Segment>, minimum: int, maximum: int, sundaySeven: bool) returns (r: Result<set<int>>)
    ensures r.Ok? <==> ValidField(field, minimum, maximum)
    ensures r.Ok? ==> forall v :: v in r.value <==> Selects(field, minimum, maximum, sundaySeven, v)
    ensures r.Err? ==> r.code == PromptCronInvalid
  {
    var values: set<int> := {};
    if field == [] {
      return Err(PromptCronInvalid);
    }
    for i := 0 to |field|
      invariant forall j :: 0 <= j < i ==> ValidSegment(field[j], minimum, maximum)
      invariant forall v :: v in values <==> Selects(field[..i], minimum, maximum, sundaySeven, v)
    {
      var segment := field[i];
      if segment.extra || segment.base.Malformed? {
        return Err(PromptCronInvalid);
      }
      if segment.step.NotInteger? || StepOf(segment) < 1 || StepOf(segment) > maximum - minimum + 1 {
        return Err(PromptCronInvalid);
      }
      var start, end := Start(segment, minimum), End(segment, maximum);
      if start < minimum || end > maximum || start > end {
        return Err(PromptCronInvalid);
      }
      var added := StepValues(segment, minimum, maximum, sundaySeven);
      SelectsNext(field, i, minimum, maximum, sundaySeven);
      values := values + added;
    }
    assert field[..|field|] == field;
    return Ok(values);
  }

  /** Walking a segment from its start in its steps. */
  method StepValues(segment: Segment, minimum: int, maximum: int, sundaySeven: bool) returns (values: set<int>)
    requires ValidSegment(segment, minimum, maximum)
    ensures forall v :: v in values <==> SegmentSelects(segment, minimum, maximum, sundaySeven, v)
  {
    var start, end, step := Start(segment, minimum), End(segment, maximum), StepOf(segment);
    var value := start;
    values := {};
    while value <= end
      invariant start <= value && OnStep(start, step, value)
      invariant forall v :: v in values <==> exists n :: n < value && Steps(segment, minimum, maximum, n) && Folded(n, sundaySeven) == v
      decreases end - value
    {
      NextStep(start, value, step);
      assert Steps(segment, minimum, maximum, value);
      ghost var before := values;
      values := values + {Folded(value, sundaySeven)};
      value := value + step;
    }
  }

  lemma MulGrows(m: int, d: int)
    requires m >= 1 && d >= 1
    ensures m * d >= m
  {
  }

  lemma RemainderUnique(x: int, m: int, q: int, r: int)
    requires m >= 1 && x == m * q + r && 0 <= r < m
    ensures x % m == r
  {
    var d := x / m - q;
    assert m * d == m * (x / m) - m * q;
    assert m * d == r - x % m;
    if d >= 1 {
      MulGrows(m, d);
    }
    if d <= -1 {
      MulGrows(m, -d);
    }
  }

  lemma RemainderShift(x: int, r: int, m: int)
    requires m >= 1 && x % m == 0 && 0 <= r < m
    ensures (x + r) % m == r && (x + m) % m == 0
  {
    var q := x / m;
    assert x == m * q;
    RemainderUnique(x + r, m, q, r);
    assert m * (q + 1) == m * q + m;
    RemainderUnique(x + m, m, q + 1, 0);
  }

  /** Between two neighbouring steps there is none. */
  lemma NextStep(start: int, value: int, step: int)
    requires step >= 1 && OnStep(start, step, value)
    ensures OnStep(start, step, value + step)
    ensures forall n :: value < n < value + step ==> !OnStep(start, step, n)
  {
    RemainderShift(value - start, 0, step);
    assert value + step - start == value - start + step;
    forall n | value < n < value + step ensures !OnStep(start, step, n) {
      RemainderShift(value - start, n - value, step);
      assert n - start == value - start + (n - value);
    }
  }

  lemma SelectsNext(field: seq<Segment>, i: nat, minimum: int, maximum: int, sundaySeven: bool)
    requires i < |field|
    ensures forall v :: Selects(field[..i + 1], minimum, maximum, sundaySeven, v) <==>
              Selects(field[..i], minimum, maximum, sundaySeven, v) || SegmentSelects(field[i], minimum, maximum, sundaySeven, v)
  {
    forall v ensures Selects(field[..i + 1], minimum, maximum, sundaySeven, v) <==>
              Selects(field[..i], minimum, maximum, sundaySeven, v) || SegmentSelects(field[i], minimum, maximum, sundaySeven, v)
    {
      if Selects(field[..i], minimum, maximum, sundaySeven, v) {
        var j :| 0 <= j < i && SegmentSelects(field[..i][j], minimum, maximum, sundaySeven, v);
        assert field[..i + 1][j] == field[j];
      }
      if SegmentSelects(field[i], minimum, maximum, sundaySeven, v) {
        assert field[..i + 1][i] == field[i];
      }
      if Selects(field[..i + 1], minimum, maximum, sundaySeven, v) {
        var j :| 0 <= j < i + 1 && SegmentSelects(field[..i + 1][j], minimum, maximum, sundaySeven, v);
        if j < i {
          assert field[..i][j] == field[j];
        }
      }
    }
  }

  // ---------------------------------------------------------------- whole schedules

  datatype Cron = Cron(minutes: set<int>, hours: set<int>, days: set<int>, months: set<int>, weekdays: set<int>,
                       dayWildcard: bool, weekdayWildcard: bool)

  function MaxDays(month: int): int {
    DaysInMonth(month, true)
  }

  /** Some day of some month could exist, or the day of the month is not what decides. */
  predicate HasPossibleCalendarMatch(c: Cron) {
    c.dayWildcard || !c.weekdayWildcard || exists month, day :: month in c.months && day in c.days && day <= MaxDays(month)
  }

  /** What the fields of an accepted schedule look like. */
  predicate ValidCron(c: Cron) {
    && c.minutes != {} && (forall v :: v in c.minutes ==> 0 <= v <= 59)
    && c.hours != {} && (forall v :: v in c.hours ==> 0 <= v <= 23)
    && c.days != {} && (forall v :: v in c.days ==> 1 <= v <= 31)
    && c.months != {} && (forall v :: v in c.months ==> 1 <= v <= 12)
    && c.weekdays != {} && (forall v :: v in c.weekdays ==> 0 <= v <= 6)
    && (c.dayWildcard <==> forall v :: 1 <= v <= 31 ==> v in c.days)
    && (c.weekdayWildcard <==> forall v :: 0 <= v <= 6 ==> v in c.weekdays)
  }

  /** The field stands for exactly these values. */
  ghost predicate FieldIs(field: seq<Segment>, minimum: int, maximum: int, sundaySeven: bool, values: set<int>) {
    ValidField(field, minimum, maximum) && forall v :: v in values <==> Selects(field, minimum, maximum, sundaySeven, v)
  }

  lemma FieldRange(field: seq<Segment>, minimum: int, maximum: int, sundaySeven: bool, values: set<int>)
    requires FieldIs(field, minimum, maximum, sundaySeven, values)
    ensures values != {} && forall v :: v in values ==> (minimum <= v <= maximum && !(sundaySeven && v == 7)) || (sundaySeven && v == 0)
  {
    var first := Start(field[0], minimum);
    assert Steps(field[0], minimum, maximum, first);
    assert SegmentSelects(field[0], minimum, maximum, sundaySeven, Folded(first, sundaySeven));
    assert Folded(first, sundaySeven) in values;
    forall v | v in values ensures (minimum <= v <= maximum && !(sundaySeven && v == 7)) || (sundaySeven && v == 0) {
      var i :| 0 <= i < |field| && SegmentSelects(field[i], minimum, maximum, sundaySeven, v);
      var n :| Steps(field[i], minimum, maximum, n) && Folded(n, sundaySeven) == v;
    }
  }

  ghost function Numbers(low: int, n: nat): (all: set<int>)
    ensures |all| == n && forall v :: v in all <==> low <= v < low + n
  {
    if n == 0 then {} else Numbers(low, n - 1) + {low + n - 1}
  }

  /** A field has its full size exactly when it holds every value. */
  lemma FullField(values: set<int>, low: int, n: nat)
    requires forall v :: v in values ==> low <= v < low + n
    ensures |values| == n <==> forall v :: low <= v < low + n ==> v in values
  {
    SubsetSize(values, Numbers(low, n));
    if forall v :: low <= v < low + n ==> v in values {
      assert values == Numbers(low, n);
    }
  }

  predicate WellFormed(fields: seq<seq<Segment>>) {
    && |fields| == 5 && ValidField(fields[0], 0, 59) && ValidField(fields[1], 0, 23) && ValidField(fields[2], 1, 31)
    && ValidField(fields[3], 1, 12) && ValidField(fields[4], 0, 7)
  }

  /** The sets are the values the five fields stand for. */
  ghost predicate FieldsAre(fields: seq<seq<Segment>>, c: Cron) {
    && |fields| == 5 && ValidCron(c)
    && FieldIs(fields[0], 0, 59, false, c.minutes) && FieldIs(fields[1], 0, 23, false, c.hours)
    && FieldIs(fields[2], 1, 31, false, c.days) && FieldIs(fields[3], 1, 12, false, c.months)
    && FieldIs(fields[4], 0, 7, true, c.weekdays)
  }

  /** A schedule is accepted exactly when its five fields are well formed and it can match at all; its
      sets are then the values the fields stand for. */
  method ParsePromptCron(fields: seq<seq<Segment>>) returns (r: Result<Cron>)
    ensures r.Ok? ==> FieldsAre(fields, r.value) && HasPossibleCalendarMatch(r.value)
    ensures r == Err(PromptHasNoRun) ==> exists c :: FieldsAre(fields, c) && !HasPossibleCalendarMatch(c)
    ensures r == Err(PromptCronInvalid) <==> !WellFormed(fields)
    ensures r.Err? ==> r.code in {PromptCronInvalid, PromptHasNoRun}
  {
    hide Selects, ValidField;
    if |fields| != 5 {
      return Err(PromptCronInvalid);
    }
    var days :- ParseCronField(fields[2], 1, 31, false);
    var weekdays :- ParseCronField(fields[4], 0, 7, true);
    var minutes :- ParseCronField(fields[0], 0, 59, false);
    var hours :- ParseCronField(fields[1], 0, 23, false);
    var months :- ParseCronField(fields[3], 1, 12, false);
    FieldRange(fields[0], 0, 59, false, minutes);
    FieldRange(fields[1], 0, 23, false, hours);
    FieldRange(fields[2], 1, 31, false, days);
    FieldRange(fields[3], 1, 12, false, months);
    FieldRange(fields[4], 0, 7, true, weekdays);
    FullField(days, 1, 31);
    FullField(weekdays, 0, 7);
    var parsed := Cron(minutes, hours, days, months, weekdays, |days| == 31, |weekdays| == 7);
    assert FieldsAre(fields, parsed);
    if !HasPossibleCalendarMatch(parsed) {
      return Err(PromptHasNoRun);
    }
    return Ok(parsed);
  }

  // ---------------------------------------------------------------- matching

  predicate DayMatches(c: Cron, day: int) {
    && MonthOf(day) in c.months
    && (var dayMatch, weekdayMatch := DateOf(day) in c.days, WeekDay(day) in c.weekdays;
        if c.dayWildcard && c.weekdayWildcard then true
        else if c.dayWildcard then weekdayMatch
        else if c.weekdayWildcard then dayMatch
        else dayMatch || weekdayMatch)
  }

  /** Minutes are counted from 1 January 1970. */
  predicate CronMatches(c: Cron, minute: int) {
    minute % 60 in c.minutes && minute / 60 % 24 in c.hours && DayMatches(c, minute / MINUTES_PER_DAY)
  }

  /** The rule of crontab: when both day fields are restricted either may match, otherwise both must. */
  lemma DayRule(c: Cron, day: int)
    requires ValidCron(c)
    ensures DayMatches(c, day) <==>
      && MonthOf(day) in c.months
      && (if !c.dayWildcard && !c.weekdayWildcard then DateOf(day) in c.days || WeekDay(day) in c.weekdays
          else DateOf(day) in c.days && WeekDay(day) in c.weekdays)
  {
  }

  /** A schedule refused for having no run matches no minute at all. */
  lemma ImpossibleNeverMatches(c: Cron, minute: int)
    requires !HasPossibleCalendarMatch(c)
    ensures !CronMatches(c, minute)
  {
    var day := minute / MINUTES_PER_DAY;
    assert DateOf(day) <= MaxDays(MonthOf(day));
  }

  // ---------------------------------------------------------------- a match always comes

  const LONGEST_WAIT := 2921

  /** Some day of the first week of a month falls on any given weekday. */
  lemma WeekdayInMonth(y: int, month: int, w: int) returns (date: int)
    requires 1 <= month <= 12 && 0 <= w < 7
    ensures 1 <= date <= 7 && ValidDate(y, month, date) && WeekDay(DayNumber(y, month, date)) == w
  {
    hide DayFromYear, InLeapYear, MonthStart;
    var first := DayNumber(y, month, 1);
    date := 1 + (w - WeekDay(first)) % 7;
    assert DayNumber(y, month, date) == first + date - 1;
  }

  lemma FirstMonth(leap: bool, month: int)
    requires 1 <= month <= 12
    ensures MonthStart(1, leap) == 0 && MonthStart(month + 1, leap) == MonthStart(month, leap) + DaysInMonth(month, leap)
  {
  }

  lemma NextYearDay(day: int, month: int, date: int)
    requires ValidDate(YearOf(day) + 1, month, date)
    ensures var next := DayNumber(YearOf(day) + 1, month, date);
            day < next <= day + 731 && MonthOf(next) == month && DateOf(next) == date
  {
    hide DayFromYear, InLeapYear, MonthStart;
    var y := YearOf(day);
    NextYear(y);
    NextYear(y + 1);
    FirstMonth(InLeapYear(y + 1), month);
    YearLength(y + 1);
    MonthsGrow(1, month, InLeapYear(y + 1));
    MonthsGrow(month + 1, 13, InLeapYear(y + 1));
    DateRoundTrip(y + 1, month, date);
  }

  /** Of eight years in a row one is a leap year; the eighth is needed only around a century that is none. */
  lemma LeapYearSoon(y: int) returns (leap: int)
    ensures y + 1 <= leap <= y + 8 && InLeapYear(leap) && (leap == y + 8 ==> InLeapYear(y) && !InLeapYear(y + 4))
  {
    leap := y + 4 - y % 4;
    if !InLeapYear(leap) {
      leap := leap + 4;
    }
  }

  /** 29 February comes within 2921 days. */
  lemma LeapDaySoon(day: int) returns (next: int)
    ensures day < next <= day + LONGEST_WAIT && MonthOf(next) == 2 && DateOf(next) == 29
  {
    var y := YearOf(day);
    if InLeapYear(y) && day < DayNumber(y, 2, 29) {
      next := DayNumber(y, 2, 29);
      DateRoundTrip(y, 2, 29);
    } else {
      var leap := LeapYearSoon(y);
      next := DayNumber(leap, 2, 29);
      DateRoundTrip(leap, 2, 29);
      LeapDayDistance(day, y, leap);
    }
  }

  lemma LeapDayDistance(day: int, y: int, leap: int)
    requires DayFromYear(y) <= day < DayFromYear(y + 1) && y + 1 <= leap <= y + 8 && InLeapYear(leap)
    requires leap == y + 8 ==> InLeapYear(y) && !InLeapYear(y + 4)
    requires InLeapYear(y) ==> day >= DayNumber(y, 2, 29)
    ensures day < DayNumber(leap, 2, 29) <= day + LONGEST_WAIT
  {
    assert DayNumber(leap, 2, 29) == DayFromYear(leap) + 59;
    YearsGrow(y + 1, leap);
    if leap == y + 8 {
      assert DayNumber(y, 2, 29) == DayFromYear(y) + 59;
      EightYears(y);
    } else {
      YearsGrow(leap, y + 7);
      LaterYear(y, 7);
    }
  }

  lemma EightYears(y: int)
    requires InLeapYear(y) && !InLeapYear(y + 4)
    ensures DayFromYear(y + 8) == DayFromYear(y) + LONGEST_WAIT
  {
    hide DayFromYear;
    NextYear(y);
    NextYear(y + 1);
    NextYear(y + 2);
    NextYear(y + 3);
    NextYear(y + 4);
    NextYear(y + 5);
    NextYear(y + 6);
    NextYear(y + 7);
  }

  /** Every accepted schedule has a matching day within 2921 days of any day. */
  lemma MatchingDaySoon(c: Cron, day: int) returns (next: int)
    requires ValidCron(c) && HasPossibleCalendarMatch(c)
    ensures day < next <= day + LONGEST_WAIT && DayMatches(c, next)
  {
    hide DayFromYear, InLeapYear, MonthOf, DateOf, WeekDay, YearOf;
    var y := YearOf(day);
    if !c.weekdayWildcard || c.dayWildcard {
      var month := Member(c.months);
      var w := Member(c.weekdays);
      var date := WeekdayInMonth(y + 1, month, w);
      NextYearDay(day, month, date);
      next := DayNumber(y + 1, month, date);
    } else {
      var month, date :| month in c.months && date in c.days && date <= MaxDays(month);
      if month == 2 && date == 29 {
        next := LeapDaySoon(day);
      } else {
        NextYearDay(day, month, date);
        next := DayNumber(y + 1, month, date);
      }
    }
  }

  lemma MinuteOfDay(day: int, hour: int, minute: int)
    requires 0 <= hour <= 23 && 0 <= minute <= 59
    ensures var m := day * MINUTES_PER_DAY + hour * 60 + minute;
            m % 60 == minute && m / 60 % 24 == hour && m / MINUTES_PER_DAY == day
  {
  }

  /** The search of eight times 366 days always meets a match. */
  lemma SearchSucceeds(c: Cron, first: int)
    requires ValidCron(c) && HasPossibleCalendarMatch(c)
    ensures exists m :: first <= m < first + MAX_CRON_SEARCH_MINUTES && CronMatches(c, m)
  {
    hide DayMatches, HasPossibleCalendarMatch;
    var next := MatchingDaySoon(c, first / MINUTES_PER_DAY);
    var hour := Member(c.hours);
    var minute := Member(c.minutes);
    MinuteOfDay(next, hour, minute);
    var m := next * MINUTES_PER_DAY + hour * 60 + minute;
    assert CronMatches(c, m);
  }

  /** The wait really gets that long: after 29 February 1896 the next one is 2921 days away. */
  lemma LongestWaitReached(day: int)
    requires DayNumber(1896, 2, 29) < day < DayNumber(1896, 2, 29) + LONGEST_WAIT
    ensures !(MonthOf(day) == 2 && DateOf(day) == 29)
    ensures DayNumber(1896, 2, 29) + LONGEST_WAIT == DayNumber(1904, 2, 29)
  {
    hide YearOf, MonthOf;
    EightYears(1896);
    YearsGrow(YearOf(day) + 1, 1896);
    YearsGrow(1905, YearOf(day));
  }

  lemma FieldFixesValues(field: seq<Segment>, minimum: int, maximum: int, sundaySeven: bool, values: set<int>, same: set<int>)
    requires FieldIs(field, minimum, maximum, sundaySeven, values) && FieldIs(field, minimum, maximum, sundaySeven, same)
    ensures values == same
  {
    hide Selects, ValidField;
    forall v ensures v in values <==> v in same {
      assert Selects(field, minimum, maximum, sundaySeven, v) <==> v in values;
    }
  }

  /** The five fields fix the schedule. */
  lemma FieldsFixCron(fields: seq<seq<Segment>>, c: Cron, d: Cron)
    requires FieldsAre(fields, c) && FieldsAre(fields, d)
    ensures c == d
  {
    hide FieldIs;
    FieldFixesValues(fields[0], 0, 59, false, c.minutes, d.minutes);
    FieldFixesValues(fields[1], 0, 23, false, c.hours, d.hours);
    FieldFixesValues(fields[2], 1, 31, false, c.days, d.days);
    FieldFixesValues(fields[3], 1, 12, false, c.months, d.months);
    FieldFixesValues(fields[4], 0, 7, true, c.weekdays, d.weekdays);
  }

  /** The search loop: the least matching minute from the first one on. */
  method FirstMatch(c: Cron, first: int) returns (minute: int)
    requires ValidCron(c) && HasPossibleCalendarMatch(c)
    ensures first <= minute && CronMatches(c, minute)
    ensures forall m :: first <= m < minute ==> !CronMatches(c, m)
  {
    hide CronMatches, ValidCron, HasPossibleCalendarMatch;
    minute := first;
    for offset := 0 to MAX_CRON_SEARCH_MINUTES
      invariant minute == first + offset
      invariant forall m :: first <= m < minute ==> !CronMatches(c, m)
    {
      if CronMatches(c, minute) {
        return;
      }
      minute := minute + 1;
    }
    SearchSucceeds(c, first);
    assert false;
  }

  /** The least matching minute strictly after the given time. It exists for every schedule that can
      match any minute at all; the other schedules are refused, and the search itself never fails. */
  method NextPromptCronAt(fields: seq<seq<Segment>>, afterMs: int) returns (r: Result<int>)
    ensures r == Err(PromptCronInvalid) <==> !WellFormed(fields)
    ensures r == Err(PromptHasNoRun) ==> exists c :: FieldsAre(fields, c) && forall minute :: !CronMatches(c, minute)
    ensures r.Ok? ==> afterMs < r.value * MINUTE_MS && exists c :: FieldsAre(fields, c) && CronMatches(c, r.value)
    ensures r.Ok? ==> forall c, m :: FieldsAre(fields, c) && afterMs < m * MINUTE_MS && CronMatches(c, m) ==> r.value <= m
    ensures r.Err? ==> r.code in {PromptCronInvalid, PromptHasNoRun}
  {
    hide CronMatches, ValidCron, HasPossibleCalendarMatch, FieldIs, WellFormed;
    var parsed := ParsePromptCron(fields);
    if parsed.Err? {
      if parsed.code == PromptHasNoRun {
        ghost var c :| FieldsAre(fields, c) && !HasPossibleCalendarMatch(c);
        forall minute ensures !CronMatches(c, minute) {
          ImpossibleNeverMatches(c, minute);
        }
      }
      return Err(parsed.code);
    }
    var minute := FirstMatch(parsed.value, afterMs / MINUTE_MS + 1);
    forall c, m | FieldsAre(fields, c) && afterMs < m * MINUTE_MS && CronMatches(c, m) ensures minute <= m {
      FieldsFixCron(fields, c, parsed.value);
    }
    return Ok(minute);
  }
}
