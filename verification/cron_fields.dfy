/** What the segments of a cron field stand for. */
module CronFields {
  import opened PromptSchedule

  /** One of start, start + step, start + 2 step and so on. */
  ghost predicate Along(start: int, step: int, n: int) {
    exists j: nat :: n == start + Times(j, step)
  }

  function Times(j: int, step: int): int {
    j * step
  }

  /** A star stands for all numbers of the field, a range for those from its first to its last, a number for itself;
      with a step only every so many of them, counted from the first, and from a number on to the end of the field. */
  ghost predicate Stands(s: Segment, minimum: int, maximum: int, n: int) {
    match s.step
    case NotInteger => false
    case NoStep =>
      (match s.base
       case Star => minimum <= n <= maximum
       case Range(from, to) => from <= n <= to
       case Value(only) => n == only
       case Malformed => false)
    case StepNumber(step) =>
      (match s.base
       case Star => minimum <= n <= maximum && Along(minimum, step, n)
       case Range(from, to) => from <= n <= to && Along(from, step, n)
       case Value(first) => first <= n <= maximum && Along(first, step, n)
       case Malformed => false)
  }

  /** At most one slash, a step of at least one and at most as many numbers as the field has, and numbers of the field
      in ascending order. */
  predicate Proper(s: Segment, minimum: int, maximum: int) {
    && !s.extra
    && (match s.step
        case NotInteger => false
        case NoStep => true
        case StepNumber(step) => 1 <= step <= maximum - minimum + 1)
    && (match s.base
        case Malformed => false
        case Star => true
        case Range(from, to) => minimum <= from <= to <= maximum
        case Value(only) => minimum <= only <= maximum)
  }

  lemma AlongMeans(start: int, step: int, n: int)
    requires step >= 1 && start <= n
    ensures OnStep(start, step, n) <==> Along(start, step, n)
  {
    if OnStep(start, step, n) {
      var j := (n - start) / step;
      assert n == start + Times(j, step) && j >= 0;
    }
    if Along(start, step, n) {
      var j: nat :| n == start + Times(j, step);
      assert n - start == step * j + 0;
      RemainderUnique(n - start, step, j, 0);
    }
  }

  lemma EveryNumber(start: int, n: int)
    requires start <= n
    ensures Along(start, 1, n)
  {
    assert n == start + Times(n - start, 1);
  }

  /** A segment is accepted exactly when it is proper, and steps exactly onto the numbers it stands for. */
  lemma SegmentMeans(s: Segment, minimum: int, maximum: int, n: int)
    requires minimum <= maximum
    ensures ValidSegment(s, minimum, maximum) <==> Proper(s, minimum, maximum)
    ensures ValidSegment(s, minimum, maximum) ==> (Steps(s, minimum, maximum, n) <==> Stands(s, minimum, maximum, n))
  {
    hide OnStep, Along;
    if ValidSegment(s, minimum, maximum) && Start(s, minimum) <= n {
      AlongMeans(Start(s, minimum), StepOf(s), n);
      EveryNumber(Start(s, minimum), n);
    }
  }

  /** A field selects exactly the numbers its segments stand for, with 7 as another 0 where it is a Sunday. */
  lemma FieldMeans(field: seq<Segment>, minimum: int, maximum: int, sundaySeven: bool, v: int)
    requires minimum <= maximum
    ensures ValidField(field, minimum, maximum) <==> field != [] && forall i :: 0 <= i < |field| ==> Proper(field[i], minimum, maximum)
    ensures ValidField(field, minimum, maximum) ==>
              (Selects(field, minimum, maximum, sundaySeven, v) <==>
               exists i, n :: 0 <= i < |field| && Stands(field[i], minimum, maximum, n) && v == if sundaySeven && n == 7 then 0 else n)
  {
    hide ValidSegment, Proper, Steps, Stands;
    forall i | 0 <= i < |field| ensures ValidSegment(field[i], minimum, maximum) == Proper(field[i], minimum, maximum) {
      SegmentMeans(field[i], minimum, maximum, 0);
    }
    forall i, n | 0 <= i < |field|
      ensures ValidSegment(field[i], minimum, maximum) ==> Steps(field[i], minimum, maximum, n) == Stands(field[i], minimum, maximum, n)
    {
      SegmentMeans(field[i], minimum, maximum, n);
    }
    if ValidField(field, minimum, maximum) {
      if Selects(field, minimum, maximum, sundaySeven, v) {
        var i :| 0 <= i < |field| && SegmentSelects(field[i], minimum, maximum, sundaySeven, v);
        var n :| Steps(field[i], minimum, maximum, n) && Folded(n, sundaySeven) == v;
        assert Stands(field[i], minimum, maximum, n);
      }
      if i, n :| 0 <= i < |field| && Stands(field[i], minimum, maximum, n) && v == if sundaySeven && n == 7 then 0 else n {
        assert Steps(field[i], minimum, maximum, n) && Folded(n, sundaySeven) == v;
        assert SegmentSelects(field[i], minimum, maximum, sundaySeven, v);
      }
    }
  }
}
