/** The size limits of the validator: what they change for a Planning Run, and what not. */
module PlanningLimits {
  import opened Errors
  import opened Wrappers
  import opened DeliveryPlans
  import opened PlanningRuns
  import opened PlanningSteps
  import opened PlanningLength
  import opened PlanningSizes
  import opened PlanningGrowth
  import Bound = PlanningBound
  import Liveness = PlanningLiveness
  import Safety = PlanningSafety

  function CreateWithin(m: Measures, id: string, plan: Plan, at: int): Result<Run> {
    var r :- CreateRun(id, plan, at);
    if !PlanFits(plan) then Err(PlanningSourcePlanTooLarge) else
    if !RunFits(m, r) then Err(PlanningTooLarge) else
    Ok(r)
  }

  /** The copy of the run on which a report is tried out, before revision and time are set. */
  function TrialCopy(r: Run, role: Role, report: Report, rec: RoleRecord, candidate: Candidate): Run {
    WithRole(r, role, rec).(condition := ReportCondition(r.condition, report), candidate := Some(candidate),
                            blocker := if r.condition == OffCourse then r.blocker else ReportBlocker(role, report))
  }

  /** Whether the run would be small enough with the candidate it is tried out with. */
  predicate TrialFits(m: Measures, r: Run, role: Role, id: string, report: Report, output: Report, at: int) {
    match ReportRole(r.roles.Get(role), role, BindingOf(r), id, report, output, at)
    case Err(_) => true
    case Ok(rec) =>
      match BuildCandidate(WithRole(r, role, rec), at)
      case Err(_) => true
      case Ok(built) => RunFits(m, TrialCopy(r, role, report, rec, built))
  }

  /** A report has a size limit of its own, and its step says whether the candidate fits. */
  predicate SizesRight(m: Measures, r: Run, s: Step, at: int) {
    match s
    case RecordReport(role, id, report, output, _, candidateFits) =>
      ReportFits(report) && candidateFits == TrialFits(m, r, role, id, report, output, at)
    case _ => true
  }

  function Limited(m: Measures, next: Result<Run>): Result<Run> {
    match next
    case Ok(run) => if RunFits(m, run) then next else Err(PlanningTooLarge)
    case Err(_) => next
  }

  /** A step with the limits: neither the stored run nor the changed copy may be too large. */
  function PerformWithin(m: Measures, r: Run, s: Step, at: int): Result<Run> {
    if !RunFits(m, r) then Err(PlanningTooLarge)
    else if !SizesRight(m, r, s, at) then Err(ReportPersistedSizeExceeded)
    else Limited(m, Perform(r, s, at))
  }

  function ExecuteWithin(m: Measures, r: Run, events: seq<Event>): Result<Run> {
    if events == [] then Ok(r)
    else
      var last := events[|events| - 1];
      var before :- ExecuteWithin(m, r, events[..|events| - 1]);
      PerformWithin(m, before, last.step, last.at)
  }

  predicate ReachesWithin(m: Measures, o: Origin, events: seq<Event>, r: Run) {
    var created := CreateWithin(m, o.id, o.plan, o.at);
    created.Ok? && ExecuteWithin(m, created.value, events) == Ok(r)
  }

  /** Exactly the plans a run is created on, sizes included. */
  lemma CreateWithinAccepted(m: Measures, o: Origin)
    ensures CreateWithin(m, o.id, o.plan, o.at).Ok? <==>
      && o.id != "" && ValidSourcePlan(o.plan) && PlanFits(o.plan)
      && RunBytes(m, Run(o.id, 1, PhasePo, Active, o.plan.def.id, o.plan.revision, o.plan.def, o.plan,
                         RoleTable(EMPTY_ROLE, EMPTY_ROLE, EMPTY_ROLE, EMPTY_ROLE), None, EmptyOutbox(o.at), None, [], "", o.at, o.at))
         <= MAX_RUN_BYTES
  {
    hide ValidSourcePlan, ValidRun, RunBytes, PlanFits;
    Bound.CreateAccepted(o);
  }

  /** Limits only take executions away: whatever holds of all executions holds of those within limits.
      Everything such an execution reaches is small enough itself. */
  lemma {:induction false} WithinReaches(m: Measures, o: Origin, events: seq<Event>, r: Run)
    requires ReachesWithin(m, o, events, r)
    ensures Reaches(o, events, r) && PlanFits(o.plan) && RunFits(m, r)
    decreases |events|
  {
    hide CreateRun, Perform, RunFits, PlanFits, SizesRight;
    if events != [] {
      var last := events[|events| - 1];
      var before := ExecuteWithin(m, CreateWithin(m, o.id, o.plan, o.at).value, events[..|events| - 1]).value;
      WithinReaches(m, o, events[..|events| - 1], before);
    }
  }

  lemma WithinExtends(m: Measures, o: Origin, events: seq<Event>, r: Run, e: Event, next: Run)
    requires ReachesWithin(m, o, events, r) && PerformWithin(m, r, e.step, e.at) == Ok(next)
    ensures ReachesWithin(m, o, events + [e], next)
  {
    hide CreateWithin, PerformWithin;
    assert (events + [e])[..|events|] == events;
  }

  /** Other steps than reports: accepted without the limit, and small enough afterwards. */
  lemma PerformsWithin(m: Measures, r: Run, s: Step, at: int)
    requires !s.RecordReport? && RunFits(m, r)
    ensures PerformWithin(m, r, s, at) == Limited(m, Perform(r, s, at))
  {
    hide Perform, RunFits, TrialFits, ReportFits;
  }

  // ---------------------------------------------------------------- ending a run

  lemma ReachedFacts(m: Measures, o: Origin, events: seq<Event>, r: Run)
    requires ReachesWithin(m, o, events, r)
    ensures ValidRun(r) && Shaped(r) && Liveness.History.AppliedExactly(r) && RunFits(m, r) && Reaches(o, events, r)
  {
    hide ReachesWithin, Reaches, ValidRun, Shaped, RunFits, Liveness.History.AppliedExactly,
      Liveness.History.InputsFrozen, Safety.DispatchFirst, Potential, PlanFits;
    WithinReaches(m, o, events, r);
    Bound.RunLength(o, events, r);
    Safety.RunSafe(o, events, r);
  }

  /** Exactly when a run within the limits can leave the course. */
  lemma LeaveWithin(m: Measures, o: Origin, events: seq<Event>, r: Run, reason: string, at: int)
    requires ReachesWithin(m, o, events, r)
    ensures PerformWithin(m, r, LeaveCourse(reason), at).Ok? <==>
      && r.updatedAt <= at && reason != "" && !Terminal(r) && r.condition != OffCourse
      && RunBytes(m, r) + StampGrowth(r, at) + LeaveGrowth(r, reason) <= MAX_RUN_BYTES
  {
    hide ReachesWithin, Reaches, Perform, PerformWithin, ValidRun, Shaped, RunBytes, StampGrowth, LeaveGrowth,
      Liveness.History.AppliedExactly;
    ReachedFacts(m, o, events, r);
    PerformsWithin(m, r, LeaveCourse(reason), at);
    Liveness.LeaveAccepted(r, reason, at);
    if Perform(r, LeaveCourse(reason), at).Ok? {
      LeaveBytes(m, r, reason, at, Perform(r, LeaveCourse(reason), at).value);
    }
  }

  /** Exactly when a run within the limits can be cancelled. */
  lemma CancelWithin(m: Measures, o: Origin, events: seq<Event>, r: Run, confirmed: bool, reason: string, at: int)
    requires ReachesWithin(m, o, events, r)
    ensures PerformWithin(m, r, CancelRun(confirmed, reason), at).Ok? <==>
      && r.updatedAt <= at && confirmed && reason != "" && !Terminal(r) && !UnresolvedWorker(r)
      && RunBytes(m, r) + StampGrowth(r, at) + CancelGrowth(r, reason) <= MAX_RUN_BYTES
  {
    hide ReachesWithin, Reaches, Perform, PerformWithin, ValidRun, Shaped, RunBytes, StampGrowth, CancelGrowth,
      UnresolvedWorker, Liveness.History.AppliedExactly;
    ReachedFacts(m, o, events, r);
    PerformsWithin(m, r, CancelRun(confirmed, reason), at);
    Liveness.CancelAccepted(r, confirmed, reason, at);
    if Perform(r, CancelRun(confirmed, reason), at).Ok? {
      CancelBytes(m, r, confirmed, reason, at, Perform(r, CancelRun(confirmed, reason), at).value);
    }
  }

  /** The next closing step is accepted at any time not before the recorded ones, exactly when what it
      adds still fits. */
  lemma ClosingWithinAccepted(m: Measures, o: Origin, events: seq<Event>, r: Run, at: int)
    requires ReachesWithin(m, o, events, r) && !Terminal(r)
    requires r.updatedAt <= at && forall role :: Liveness.StampedBy(r.roles.Get(role), at)
    ensures PerformWithin(m, r, Liveness.Closing(r), at).Ok? <==> RunBytes(m, r) + ClosingGrowth(r, at) <= MAX_RUN_BYTES
  {
    hide ReachesWithin, Reaches, Perform, PerformWithin, ValidRun, Shaped, RunBytes, ClosingGrowth, Liveness.Closing,
      Liveness.StampedBy, Liveness.History.AppliedExactly;
    ReachedFacts(m, o, events, r);
    Liveness.ClosingAccepted(r, at);
    ClosingNoReport(r);
    PerformsWithin(m, r, Liveness.Closing(r), at);
    ClosingBytes(m, r, at, Perform(r, Liveness.Closing(r), at).value);
  }

  lemma ClosingNoReport(r: Run)
    ensures !Liveness.Closing(r).RecordReport?
  {
    hide UnresolvedRole;
  }

  /** The closing steps of the run, one after the other and all at this time, each within the limits. */
  function ClosedWithin(m: Measures, r: Run, at: int, steps: int): Result<Run>
    decreases steps
  {
    match PerformWithin(m, r, Liveness.Closing(r), at)
    case Err(code) => Err(code)
    case Ok(next) => if Terminal(next) || steps <= 1 then Ok(next) else ClosedWithin(m, next, at, steps - 1)
  }

  /** Whether the bytes of the run stay within the limit when what each closing step adds is summed up. */
  predicate ClosingRoom(bytes: int, r: Run, at: int, steps: int)
    decreases steps
  {
    && bytes + ClosingGrowth(r, at) <= MAX_RUN_BYTES
    && match Perform(r, Liveness.Closing(r), at)
       case Err(_) => false
       case Ok(next) => Terminal(next) || steps <= 1 || ClosingRoom(bytes + ClosingGrowth(r, at), next, at, steps - 1)
  }

  /** Exactly when the closing steps cancel the run within the limit, at any time not before the recorded ones. */
  lemma {:induction false} ClosedExactly(m: Measures, o: Origin, events: seq<Event>, r: Run, at: int, steps: int) returns (more: seq<Event>)
    requires ReachesWithin(m, o, events, r) && !Terminal(r) && Potential(r) <= steps
    requires r.updatedAt <= at && forall role :: Liveness.StampedBy(r.roles.Get(role), at)
    ensures ClosedWithin(m, r, at, steps).Ok? <==> ClosingRoom(RunBytes(m, r), r, at, steps)
    ensures match ClosedWithin(m, r, at, steps)
            case Ok(stopped) => ReachesWithin(m, o, events + more, stopped) && stopped.phase == PhaseClosed && stopped.condition == RunCanceled
            case Err(_) => true
    decreases steps
  {
    hide ReachesWithin, Reaches, Perform, PerformWithin, ValidRun, Shaped, RunBytes, ClosingGrowth, Liveness.Closing, Liveness.StampedBy,
      Liveness.History.AppliedExactly, Potential, Bound.Used, PlanFits, RunFits;
    ClosingWithinAccepted(m, o, events, r, at);
    ReachedFacts(m, o, events, r);
    Liveness.ClosingAccepted(r, at);
    var e, next := Event(Liveness.Closing(r), at), Perform(r, Liveness.Closing(r), at).value;
    ClosingBytes(m, r, at, next);
    more := [];
    if RunBytes(m, r) + ClosingGrowth(r, at) <= MAX_RUN_BYTES {
      ClosingNoReport(r);
      PerformsWithin(m, r, e.step, at);
      WithinExtends(m, o, events, r, e, next);
      Bound.PerformUses(r, e.step, at, next);
      Liveness.UsedPotential(r, next);
      more := [e];
      if Terminal(next) {
        Liveness.ClosingEnds(r, at, next);
      } else {
        Bound.RunLength(o, events, r);
        ReachedFacts(m, o, events + [e], next);
        ValidRunBounded(next);
        PotentialNonNegative(next);
        ClosingStamped(r, at, next);
        var rest := ClosedExactly(m, o, events + [e], next, at, steps - 1);
        assert events + [e] + rest == events + ([e] + rest);
        more := [e] + rest;
      }
    }
  }

  /** A run with room for the closing steps it may still need is cancelled by them. */
  lemma {:induction false} CanBeStoppedWithin(m: Measures, o: Origin, events: seq<Event>, r: Run) returns (more: seq<Event>, stopped: Run)
    requires ReachesWithin(m, o, events, r) && !Terminal(r)
    requires RunBytes(m, r) + CLOSING_BYTES * Potential(r) <= MAX_RUN_BYTES
    ensures ReachesWithin(m, o, events + more, stopped) && stopped.phase == PhaseClosed && stopped.condition == RunCanceled
    ensures 0 < |more| <= Potential(r)
    decreases Potential(r)
  {
    hide Reaches, ReachesWithin, Perform, PerformWithin, Potential, RunBytes, Liveness.Closing, ClosingGrowth,
      PlanFits;
    WithinReaches(m, o, events, r);
    var e, next := Liveness.CloseStep(o, events, r);
    ClosingNoReport(r);
    ClosingBytes(m, r, e.at, next);
    ClosingAtMost(r, e.at);
    PerformsWithin(m, r, e.step, e.at);
    WithinExtends(m, o, events, r, e, next);
    var step := [e];
    if Terminal(next) {
      more, stopped := step, next;
    } else {
      var rest;
      rest, stopped := CanBeStoppedWithin(m, o, events + step, next);
      more := step + rest;
      assert events + step + rest == events + more;
    }
  }

  /** Whatever its state, a run of at most 234004 bytes can be stopped. */
  lemma SmallRunsStop(m: Measures, o: Origin, events: seq<Event>, r: Run) returns (more: seq<Event>, stopped: Run)
    requires ReachesWithin(m, o, events, r) && !Terminal(r) && RunBytes(m, r) <= 234004
    ensures ReachesWithin(m, o, events + more, stopped) && stopped.phase == PhaseClosed && stopped.condition == RunCanceled
  {
    hide Reaches, ReachesWithin, Potential, RunBytes, ValidRun, Shaped, PlanFits;
    WithinReaches(m, o, events, r);
    Bound.RunLength(o, events, r);
    more, stopped := CanBeStoppedWithin(m, o, events, r);
  }
}
