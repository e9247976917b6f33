/** Where the validator decides: changed copies that pass the guard of their step and are refused nevertheless. */
module PlanningRefusals {
  import opened Errors
  import opened Wrappers
  import opened PlanningRuns
  import opened PlanningSteps
  import opened PlanningLength
  import Bound = PlanningBound
  import Safety = PlanningSafety
  import Liveness = PlanningLiveness

  /** One unfinished role record changed, and with it condition, blocker, synthesis blocker and receipts. */
  predicate RoleReplaced(r: Run, role: Role, m: Run) {
    && m == WithRole(r, role, m.roles.Get(role)).(condition := m.condition, blocker := m.blocker,
                                                  synthesisBlocker := m.synthesisBlocker, receipts := m.receipts)
    && r.phase != PhaseClosed && r.roles.Get(role).state != Pending && !CompletedAndCleaned(r.roles.Get(role))
  }

  /** The validator accepts such a change when it accepts the record, the condition, and what goes with them. */
  lemma ReplacedValid(r: Run, role: Role, m: Run, at: int)
    requires ValidRun(r) && r.updatedAt <= at && RoleReplaced(r, role, m) && m.condition != RunCanceled
    requires ValidRole(m.roles.Get(role), role, BindingOf(r)) && ValidReceipts(m.receipts, r.revision + 1)
    ensures ValidRun(Stamped(m, at)) <==> ConditionLifecycle(m) && ValidSynthesisBlocker(m)
  {
    hide ValidSourcePlan, ValidRole, BuildCandidate, CompletedAndCleaned, ValidReceipts, ReportComplete;
    var next := Stamped(m, at);
    assert ValidRoles(next.roles, BindingOf(next));
    assert r.candidate.None?;
  }

  // ---------------------------------------------------------------- complete reports

  function Peer(role: Role): Role {
    if role == QA then DEV else QA
  }

  /** Recording the report, the candidate the four reports would form is tried out and fails. */
  predicate TrialFails(r: Run, role: Role, recorded: RoleRecord, candidateFits: bool, at: int) {
    && role in {QA, DEV} && r.roles.Get(Peer(role)).report.Some?
    && (BuildCandidate(WithRole(r, role, recorded), at).Err? || !candidateFits)
  }

  predicate OthersComplete(t: RoleTable, role: Role) {
    forall other :: other != role ==> ReportComplete(t.Get(other))
  }

  lemma FinishedValid(a: Attempt, role: Role, b: RunBinding, summary: string, at: int)
    requires ValidAttemptBinding(a, role, b) && ValidAttemptLifecycle(a) && a.state == Submitted && summary != ""
    ensures ValidAttemptBinding(FinishedAttempt(a, OutComplete, summary, "", at), role, b)
    ensures ValidAttemptLifecycle(FinishedAttempt(a, OutComplete, summary, "", at))
  {
    assert a.lease.stop.None? by {
      AdoptedStop(a.lease, ExpectedLeaseBinding(b, role, a.id, a.inputDigest, a.lease.binding.contextDigest,
                                                a.lease.binding.launchDigest, a.lease.binding.bindDeadlineAt));
    }
    hide ValidLease, ExpectedLeaseBinding;
  }

  lemma AdoptedStop(l: SpawnLease, expected: LeaseBinding)
    requires ValidLease(l, expected)
    ensures l.state == LeaseAdopted ==> l.stop.None?
  {
  }

  lemma RecordedValid(rec: RoleRecord, role: Role, b: RunBinding, attemptId: string, report: Report, output: Report, at: int, rec': RoleRecord)
    requires ValidRole(rec, role, b) && ReportRole(rec, role, b, attemptId, report, output, at) == Ok(rec') && report.status == StComplete
    ensures ValidRole(rec', role, b) && rec'.state == Completed && ReportComplete(rec')
    ensures rec.state == Dispatched && rec.report.None?
  {
    hide ValidAttemptBinding, ValidAttemptLifecycle, ReportFor;
    FinishedValid(rec.attempts[0], role, b, ReportSummary(role, StComplete), at);
  }

  /** A candidate depends on the roles, the identity and the plan of the run alone. */
  lemma BuildStable(r: Run, next: Run, at: int)
    requires next.roles == r.roles && BindingOf(next) == BindingOf(r) && next.sourcePlan == r.sourcePlan
    ensures BuildCandidate(next, at) == BuildCandidate(r, at)
  {
    hide PatchFor, PlanPatch, CandidateChallenges, PlanningRuns.Phases.UpdateDefinition,
      PlanningRuns.DeliveryPlans.Complete;
  }

  lemma ArtifactThere(rec: RoleRecord, role: Role, b: RunBinding)
    requires ValidRole(rec, role, b) && rec.report.Some?
    ensures ArtifactFits(rec.report.value.artifact, role)
  {
    hide ValidAttemptBinding, ValidAttemptLifecycle;
  }

  lemma ReportsThere(t: RoleTable, b: RunBinding)
    requires AllReportsComplete(t) && ValidRoles(t, b)
    ensures ReportsOf(t).Ok?
  {
    hide ValidRole;
    ArtifactThere(t.po, PO, b);
    ArtifactThere(t.ba, BA, b);
    ArtifactThere(t.qa, QA, b);
    ArtifactThere(t.dev, DEV, b);
  }

  /** With all four reports complete, a candidate that cannot be formed is invalid or changes nothing. */
  lemma BuildFails(r: Run, at: int)
    requires AllReportsComplete(r.roles) && ValidRoles(r.roles, BindingOf(r))
    ensures match BuildCandidate(r, at)
            case Err(code) => code in {PlanningCandidateInvalid, PlanningCandidateUnchanged}
            case Ok(_) => true
  {
    hide PatchFor, PlanPatch, CandidateChallenges, ValidRole, ReportsOf, ReportComplete,
      PlanningRuns.Phases.UpdateDefinition, PlanningRuns.DeliveryPlans.Complete;
    ReportsThere(r.roles, BindingOf(r));
  }

  /** The copy a complete report makes of the run when it is not tried out, or the trial succeeds. */
  function Untried(r: Run, role: Role, recorded: RoleRecord): Run {
    WithRole(r, role, recorded).(blocker := if r.condition == OffCourse then r.blocker else "")
  }

  function Tried(r: Run, role: Role, recorded: RoleRecord, code: Error, at: int): Run {
    WithRole(r, role, recorded).(synthesisBlocker := Some(SynthesisBlocker(code, SynthesisReason(code), at)),
                                 condition := if r.condition == OffCourse then OffCourse else AwaitingInput,
                                 blocker := if r.condition == OffCourse then r.blocker else SynthesisReason(code))
  }

  /** What blocks the synthesis when the trial fails: the reason no candidate is built, or its size. */
  function TrialCode(built: Result<Candidate>): Error {
    match built
    case Ok(_) => PlanningCandidateTooLarge
    case Err(code) => code
  }

  predicate BlocksSynthesis(code: Error) {
    code in {PlanningCandidateInvalid, PlanningCandidateUnchanged, PlanningCandidateTooLarge}
  }

  lemma ReportedCopy(r: Run, role: Role, id: string, report: Report, output: Report, envelopeFits: bool, candidateFits: bool, at: int,
                     recorded: RoleRecord)
    requires report.status == StComplete && (role in {PO, BA} ==> envelopeFits)
    requires ReportRole(r.roles.Get(role), role, BindingOf(r), id, report, output, at) == Ok(recorded) && recorded.report.Some?
    ensures !TrialFails(r, role, recorded, candidateFits, at) ==>
              RecordReportStep(r, role, id, report, output, envelopeFits, candidateFits, at) == Ok(Untried(r, role, recorded))
    ensures TrialFails(r, role, recorded, candidateFits, at) ==>
              var code := TrialCode(BuildCandidate(WithRole(r, role, recorded), at));
              RecordReportStep(r, role, id, report, output, envelopeFits, candidateFits, at)
              == if BlocksSynthesis(code) then Ok(Tried(r, role, recorded, code, at)) else Err(code)
  {
    hide ReportRole, BuildCandidate, SynthesisReason, ReportSummary, StatusName;
    var next := Untried(r, role, recorded);
    BuildStable(WithRole(r, role, recorded), next, at);
  }

  /** The attempt of the role has not ended yet. */
  predicate UnderWay(rec: RoleRecord) {
    rec.state in {SpawnClaimed, DispatchClaimed, Dispatched}
  }

  lemma UnderWayFacts(r: Run, role: Role)
    requires ValidRun(r) && r.phase != PhaseClosed && UnderWay(r.roles.Get(role))
    ensures r.roles.Get(role).report.None? && r.candidate.None? && r.synthesisBlocker.None? && !CompletedAndCleaned(r.roles.Get(role))
    ensures role in {QA, DEV} ==> r.phase == PhaseChallenge
    ensures ConditionLifecycle(r) && r.condition != RunCanceled && ValidReceipts(r.receipts, r.revision + 1)
  {
    hide ValidSourcePlan, ValidAttemptBinding, ValidAttemptLifecycle, ReportFor, BuildCandidate, ValidReceipts;
    assert ValidRole(r.roles.Get(role), role, BindingOf(r));
    Liveness.LaterReceipts(r.receipts, r.revision);
  }

  lemma UntriedValid(r: Run, role: Role, recorded: RoleRecord, at: int)
    requires ValidRun(r) && r.updatedAt <= at && r.phase != PhaseClosed && r.roles.Get(role).state == Dispatched
    requires ValidRole(recorded, role, BindingOf(r)) && recorded.state == Completed
    ensures ValidRun(Stamped(Untried(r, role, recorded), at)) <==> r.condition in {Active, OffCourse}
  {
    hide ValidRun, ValidRole, CompletedAndCleaned, ReportComplete, ValidReceipts;
    UnderWayFacts(r, role);
    ReplacedValid(r, role, Untried(r, role, recorded), at);
  }

  lemma TriedValid(r: Run, role: Role, recorded: RoleRecord, code: Error, at: int)
    requires ValidRun(r) && r.updatedAt <= at && r.phase != PhaseClosed && r.roles.Get(role).state == Dispatched && role in {QA, DEV}
    requires ValidRole(recorded, role, BindingOf(r)) && recorded.state == Completed && ReportComplete(recorded)
    requires code in {PlanningCandidateInvalid, PlanningCandidateUnchanged, PlanningCandidateTooLarge}
    ensures ValidRun(Stamped(Tried(r, role, recorded, code, at), at)) <==> OthersComplete(r.roles, role)
  {
    hide SynthesisReason, ValidRun, ValidRole, CompletedAndCleaned, ReportComplete, ValidReceipts;
    UnderWayFacts(r, role);
    var m := Tried(r, role, recorded, code, at);
    ReplacedValid(r, role, m, at);
    Bound.GetWith(r.roles, role, recorded);
    assert AllReportsComplete(m.roles) <==> OthersComplete(r.roles, role) by {
      assert forall other :: ReportComplete(m.roles.Get(other)) <==> other == role || ReportComplete(r.roles.Get(other));
      assert AllReportsComplete(m.roles) <==> forall other :: ReportComplete(m.roles.Get(other)) by { AllRoles(m.roles); }
    }
  }

  lemma AllRoles(t: RoleTable)
    ensures AllReportsComplete(t) <==> forall other :: ReportComplete(t.Get(other))
  {
    hide ReportComplete;
    assert t.Get(PO) == t.po && t.Get(BA) == t.ba && t.Get(QA) == t.qa && t.Get(DEV) == t.dev;
  }

  /** Exactly when a complete report is accepted in a run that is not closed. Clearing the blocker is refused
      unless the run is active or off course; a failed trial replaces the condition instead, and is
      refused unless the other three reports are complete, off course as well. */
  lemma CompleteReportAccepted(r: Run, role: Role, id: string, report: Report, output: Report, envelopeFits: bool, candidateFits: bool, at: int)
    requires report.status == StComplete && r.phase != PhaseClosed
    ensures Perform(r, RecordReport(role, id, report, output, envelopeFits, candidateFits), at).Ok? <==>
      && ValidRun(r) && r.updatedAt <= at && (role in {PO, BA} ==> envelopeFits)
      && match ReportRole(r.roles.Get(role), role, BindingOf(r), id, report, output, at)
         case Ok(recorded) =>
           if TrialFails(r, role, recorded, candidateFits, at) then OthersComplete(r.roles, role) else r.condition in {Active, OffCourse}
         case Err(_) => false
  {
    hide ValidRun, ValidRole, ReportRole, BuildCandidate, TrialFails, RecordReportStep, Untried, Tried,
      OthersComplete;
    hide LocalMutation, BlamingMutation, SpawnMutation, WaitMutation, RetryMutation, ContinueMutation,
      CompileStep, ClaimApplyStep, AppliedStep, ReconcileApplyStep, AbandonStep, OffCourseStep, CancelStep;
    var rec, s := r.roles.Get(role), RecordReport(role, id, report, output, envelopeFits, candidateFits);
    assert Mutated(r, s, at) == RecordReportStep(r, role, id, report, output, envelopeFits, candidateFits, at);
    match ReportRole(rec, role, BindingOf(r), id, report, output, at) {
      case Ok(recorded) =>
        if ValidRun(r) && (role in {PO, BA} ==> envelopeFits) && r.updatedAt <= at {
          Safety.ValidGet(r, role);
          RecordedValid(rec, role, BindingOf(r), id, report, output, at, recorded);
          ReportedCopy(r, role, id, report, output, envelopeFits, candidateFits, at, recorded);
          if TrialFails(r, role, recorded, candidateFits, at) {
            TrialAccepted(r, role, id, report, output, envelopeFits, candidateFits, at, recorded);
          } else {
            UntriedValid(r, role, recorded, at);
          }
        } else if role in {PO, BA} && !envelopeFits {
          ReportNeeds(r, role, id, report, output, envelopeFits, candidateFits, at);
        }
      case Err(_) => ReportNeeds(r, role, id, report, output, envelopeFits, candidateFits, at);
    }
  }

  lemma TrialAccepted(r: Run, role: Role, id: string, report: Report, output: Report, envelopeFits: bool, candidateFits: bool, at: int,
                      recorded: RoleRecord)
    requires report.status == StComplete && r.phase != PhaseClosed && ValidRun(r) && r.updatedAt <= at
    requires ReportRole(r.roles.Get(role), role, BindingOf(r), id, report, output, at) == Ok(recorded)
    requires TrialFails(r, role, recorded, candidateFits, at) && r.roles.Get(role).state == Dispatched
    requires ValidRole(recorded, role, BindingOf(r)) && recorded.state == Completed && ReportComplete(recorded)
    ensures match RecordReportStep(r, role, id, report, output, envelopeFits, candidateFits, at)
            case Ok(m) => ValidRun(Stamped(m, at)) <==> OthersComplete(r.roles, role)
            case Err(_) => !OthersComplete(r.roles, role)
  {
    hide ValidRun, ValidRole, ReportRole, BuildCandidate, RecordReportStep, Tried, Untried, TrialCode;
    ReportedCopy(r, role, id, report, output, envelopeFits, candidateFits, at, recorded);
    var tried := WithRole(r, role, recorded);
    var code := TrialCode(BuildCandidate(tried, at));
    if BlocksSynthesis(code) {
      TriedValid(r, role, recorded, code, at);
    } else if OthersComplete(r.roles, role) {
      RolesAfter(r, role, recorded);
      BuildFails(tried, at);
      CodeBlocks(tried, at);
      assert false;
    }
  }

  lemma CodeBlocks(r: Run, at: int)
    requires match BuildCandidate(r, at)
             case Err(code) => code in {PlanningCandidateInvalid, PlanningCandidateUnchanged}
             case Ok(_) => true
    ensures BlocksSynthesis(TrialCode(BuildCandidate(r, at)))
  {
    hide BuildCandidate;
  }

  lemma RolesAfter(r: Run, role: Role, recorded: RoleRecord)
    requires ValidRun(r) && ValidRole(recorded, role, BindingOf(r)) && ReportComplete(recorded) && OthersComplete(r.roles, role)
    ensures AllReportsComplete(WithRole(r, role, recorded).roles) && ValidRoles(WithRole(r, role, recorded).roles, BindingOf(r))
  {
    hide ValidRole, ReportComplete, ValidSourcePlan, ValidCandidate, ValidOutbox, ValidSynthesisBlocker, ValidReceipts, PhaseLifecycle, ConditionLifecycle;
    Bound.GetWith(r.roles, role, recorded);
    AllRoles(WithRole(r, role, recorded).roles);
  }

  lemma ReportNeeds(r: Run, role: Role, id: string, report: Report, output: Report, envelopeFits: bool, candidateFits: bool, at: int)
    requires report.status == StComplete
    requires ReportRole(r.roles.Get(role), role, BindingOf(r), id, report, output, at).Err? || (role in {PO, BA} && !envelopeFits)
    ensures RecordReportStep(r, role, id, report, output, envelopeFits, candidateFits, at).Err?
  {
    hide ReportRole, BuildCandidate, TrialSynthesis;
  }

  /** The same over whole executions: a reachable run that is closed expects no report, and where a trial
      takes place only the report of the peer can be incomplete. */
  lemma CompleteReportInRun(o: Origin, events: seq<Event>, r: Run, role: Role, id: string, report: Report, output: Report, envelopeFits: bool, candidateFits: bool,
                            at: int)
    requires Reaches(o, events, r) && report.status == StComplete
    ensures Perform(r, RecordReport(role, id, report, output, envelopeFits, candidateFits), at).Ok? <==>
      && r.updatedAt <= at && (role in {PO, BA} ==> envelopeFits)
      && match ReportRole(r.roles.Get(role), role, BindingOf(r), id, report, output, at)
         case Ok(recorded) =>
           if TrialFails(r, role, recorded, candidateFits, at) then ReportComplete(r.roles.Get(Peer(role))) else r.condition in {Active, OffCourse}
         case Err(_) => false
  {
    hide Reaches, ValidRun, ReportRole, BuildCandidate, Perform, ReportComplete, OthersComplete, Shaped, Potential;
    Bound.RunLength(o, events, r);
    var recorded := ReportRole(r.roles.Get(role), role, BindingOf(r), id, report, output, at);
    if r.phase == PhaseClosed {
      Bound.TerminalIsFinal(o, events, r, RecordReport(role, id, report, output, envelopeFits, candidateFits), at);
      if recorded.Ok? {
        ReportNeedsDispatched(r.roles.Get(role), role, BindingOf(r), id, report, output, at);
        ClosedNotDispatched(r, role);
        assert false;
      }
    } else {
      CompleteReportAccepted(r, role, id, report, output, envelopeFits, candidateFits, at);
      if recorded.Ok? && TrialFails(r, role, recorded.value, candidateFits, at) {
        ReportNeedsDispatched(r.roles.Get(role), role, BindingOf(r), id, report, output, at);
        ChallengeOthers(r, role);
      }
    }
  }

  /** The attempt and the record a report other than a complete one leaves. */
  function EndedByReport(a: Attempt, role: Role, report: Report, at: int): Attempt {
    a.(state := Finished, finishedAt := Some(at), outcome := StatusOutcome(report.status), summary := ReportSummary(role, report.status),
       error := if report.status in {StBlocked, StFailed} then Cut(Joined(report.challenges)) else "", cleanup := Some(PENDING_CLEANUP))
  }

  function StoppedByReport(rec: RoleRecord, a: Attempt, report: Report): RoleRecord {
    rec.(state := if report.status == StNeedsInput then RoleNeedsInput else RoleFailed, attempts := [a],
         report := Some(report), outputDigest := Some(report))
  }

  lemma ReportedRecord(rec: RoleRecord, a: Attempt, role: Role, b: RunBinding, attemptId: string, report: Report, output: Report, at: int,
                       rec': RoleRecord)
    requires ReportRole(rec, role, b, attemptId, report, output, at) == Ok(rec') && report.status != StComplete
    requires rec.attempts == [a] && a.dispatch.Some?
    ensures rec' == StoppedByReport(rec, EndedByReport(a, role, report, at), report)
    ensures rec.state == Dispatched && a.state == Submitted && rec.inputDigest.Some?
    ensures exists d :: rec.inputDigest == Some(d) && ReportFor(report, b, role, a.id, d)
  {
    hide ReportFor, Cut, Joined;
    var a' := EndedByReport(a, role, report, at);
    assert [a][0 := a'] == [a'];
  }

  lemma ReportedRoleValid(rec: RoleRecord, a: Attempt, role: Role, b: RunBinding, a': Attempt, report: Report)
    requires ValidRole(rec, role, b) && rec.attempts == [a] && a'.id == a.id && a'.inputDigest == a.inputDigest && a'.state == Finished
    requires ValidAttemptBinding(a', role, b) && ValidAttemptLifecycle(a') && report.status != StComplete && a'.outcome == StatusOutcome(report.status)
    requires exists d :: rec.inputDigest == Some(d) && ReportFor(report, b, role, a'.id, d)
    ensures ValidRole(StoppedByReport(rec, a', report), role, b)
  {
    hide ValidAttemptBinding, ValidAttemptLifecycle, ReportFor;
  }

  lemma OtherRecorded(rec: RoleRecord, role: Role, b: RunBinding, attemptId: string, report: Report, output: Report, at: int, rec': RoleRecord)
    requires ValidRole(rec, role, b) && ReportRole(rec, role, b, attemptId, report, output, at) == Ok(rec') && report.status != StComplete
    ensures ValidRole(rec', role, b) && rec'.state == if report.status == StNeedsInput then RoleNeedsInput else RoleFailed
    ensures UnderWay(rec) && |rec.attempts| == 1
  {
    hide ValidRole, ValidAttemptBinding, ValidAttemptLifecycle, ReportFor, Cut, Joined, ReportRole, ValidCleanup;
    AttemptsValid(rec, role, b);
    ReportNeedsDispatched(rec, role, b, attemptId, report, output, at);
    var a := rec.attempts[0];
    Liveness.AttemptOf(rec, a, role, b);
    EndingCleanups("lost");
    var error := if report.status in {StBlocked, StFailed} then Cut(Joined(report.challenges)) else "";
    EndedAttemptValid(a, role, b, Finished, StatusOutcome(report.status), ReportSummary(role, report.status), error, PENDING_CLEANUP, at);
    ReportedRecord(rec, a, role, b, attemptId, report, output, at, rec');
    ReportedRoleValid(rec, a, role, b, EndedByReport(a, role, report, at), report);
  }

  /** Any other report is accepted whenever it passes its guard: it always says why the run stops. */
  lemma OtherReportAccepted(r: Run, role: Role, id: string, report: Report, output: Report, envelopeFits: bool, candidateFits: bool, at: int)
    requires report.status != StComplete && r.phase != PhaseClosed
    ensures Perform(r, RecordReport(role, id, report, output, envelopeFits, candidateFits), at).Ok? <==>
      ValidRun(r) && r.updatedAt <= at && ReportRole(r.roles.Get(role), role, BindingOf(r), id, report, output, at).Ok?
  {
    hide ValidRun, ValidRole, ReportRole, Mutated, Blame, UnderWay, ReportBlocker;
    var recorded := ReportRole(r.roles.Get(role), role, BindingOf(r), id, report, output, at);
    OtherCopy(r, role, id, report, output, envelopeFits, candidateFits, at);
    if ValidRun(r) && r.updatedAt <= at && recorded.Ok? {
      Safety.ValidGet(r, role);
      OtherRecorded(r.roles.Get(role), role, BindingOf(r), id, report, output, at, recorded.value);
      BlamedValid(r, role, recorded.value, if report.status == StNeedsInput then AwaitingInput else RunFailed, ReportBlocker(role, report), at);
    }
  }

  lemma OtherCopy(r: Run, role: Role, id: string, report: Report, output: Report, envelopeFits: bool, candidateFits: bool, at: int)
    requires report.status != StComplete
    ensures Mutated(r, RecordReport(role, id, report, output, envelopeFits, candidateFits), at)
            == match ReportRole(r.roles.Get(role), role, BindingOf(r), id, report, output, at)
               case Ok(recorded) =>
                 Ok(Blame(WithRole(r, role, recorded), if report.status == StNeedsInput then AwaitingInput else RunFailed, ReportBlocker(role, report)))
               case Err(code) => Err(code)
    ensures ReportBlocker(role, report) != ""
  {
    hide ReportRole, LocalMutation, BlamingMutation, BuildCandidate, Joined, SpawnMutation;
  }

  lemma ReportNeedsDispatched(rec: RoleRecord, role: Role, b: RunBinding, attemptId: string, report: Report, output: Report, at: int)
    requires ReportRole(rec, role, b, attemptId, report, output, at).Ok?
    ensures rec.state == Dispatched && rec.attempts != [] && rec.attempts[|rec.attempts| - 1].state == Submitted
  {
  }

  lemma ClosedNotDispatched(r: Run, role: Role)
    requires Shaped(r) && r.phase == PhaseClosed
    ensures r.roles.Get(role).state != Dispatched
  {
    assert RoleShape(r.roles.Get(role)) && Settled(r.roles.Get(role));
  }

  lemma ChallengeOthers(r: Run, role: Role)
    requires ValidRun(r) && r.phase != PhaseClosed && role in {QA, DEV} && r.roles.Get(role).state == Dispatched
    ensures OthersComplete(r.roles, role) <==> ReportComplete(r.roles.Get(Peer(role)))
  {
    hide ValidRun, ReportComplete, ValidReceipts;
    UnderWayFacts(r, role);
    ChallengeUpstream(r);
  }

  lemma ChallengeUpstream(r: Run)
    requires ValidRun(r) && r.phase == PhaseChallenge
    ensures ReportComplete(r.roles.po) && ReportComplete(r.roles.ba)
  {
    hide ValidSourcePlan, ValidRoles, ValidCandidate, ValidOutbox, ValidSynthesisBlocker, ValidReceipts, ConditionLifecycle, ReportComplete;
  }

  // ---------------------------------------------------------------- ending an attempt without a report

  /** The step that ends an attempt without a report. */
  function UnreportedStep(role: Role, id: string, outcome: Outcome, reason: string): Step {
    match outcome
    case OutNeedsInput => RequireInput(role, id, reason)
    case OutCrashed => RecordCrash(role, id, reason)
    case _ => RequireRoleReconcile(role, id, reason)
  }

  predicate EndsUnreported(outcome: Outcome) {
    outcome in {NoOutcome, OutNeedsInput, OutCrashed}
  }

  /** The role has an adopted worker that has not been heard of since. */
  predicate WorkerAtWork(rec: RoleRecord, attemptId: string) {
    |rec.attempts| == 1 && rec.attempts[0].id == attemptId && rec.attempts[0].state in {Dispatching, Submitted}
  }

  /** An ended attempt without an adopted worker needs a lease that was closed or put in doubt. */
  lemma EndedProvisional(a: Attempt)
    requires a.dispatch.None? && a.lease.state in {LeaseClaimed, LeaseBound} && a.state in {Finished, Crashed, AttemptReconcile}
    ensures !ValidAttemptLifecycle(a)
  {
  }

  lemma SpawningProvisional(a: Attempt)
    requires ValidAttemptLifecycle(a) && a.state == Spawning
    ensures a.dispatch.None? && a.lease.state in {LeaseClaimed, LeaseBound}
  {
  }

  lemma AttemptsValid(rec: RoleRecord, role: Role, b: RunBinding)
    requires ValidRole(rec, role, b)
    ensures |rec.attempts| <= 1 && forall a :: a in rec.attempts ==> ValidAttemptLifecycle(a)
  {
    hide ValidAttemptBinding, ValidAttemptLifecycle, ReportFor;
  }

  lemma ProvisionalRefused(rec: RoleRecord, role: Role, b: RunBinding, id: string, outcome: Outcome, reason: string, at: int, rec': RoleRecord)
    requires ValidRole(rec, role, b) && UnreportedRole(rec, id, outcome, reason, at) == Ok(rec') && EndsUnreported(outcome)
    requires ValidRole(rec', role, b)
    ensures WorkerAtWork(rec, id)
  {
    hide ValidRole, ValidAttemptLifecycle;
    AttemptsValid(rec, role, b);
    AttemptsValid(rec', role, b);
    assert rec.attempts[0] in rec.attempts && rec'.attempts[0] in rec'.attempts;
    if rec.attempts[0].state == Spawning {
      SpawningProvisional(rec.attempts[0]);
      EndedProvisional(rec'.attempts[0]);
      assert false;
    }
  }

  lemma EndedValid(rec: RoleRecord, a: Attempt, role: Role, b: RunBinding, state: RoleState, a': Attempt)
    requires ValidRole(rec, role, b) && rec.attempts == [a] && a.state in {Dispatching, Submitted}
    requires a'.id == a.id && a'.inputDigest == a.inputDigest && ValidAttemptBinding(a', role, b) && ValidAttemptLifecycle(a')
    requires match state
             case RoleReconcile => a'.state == AttemptReconcile
             case RoleNeedsInput => a'.state == Finished && a'.outcome == OutNeedsInput
             case RoleFailed => a'.state == Crashed && a'.outcome == OutCrashed
             case _ => false
    ensures ValidRole(rec.(state := state, attempts := [a']), role, b)
  {
    hide ValidAttemptBinding, ValidAttemptLifecycle, ReportFor;
  }

  lemma EndedAttemptValid(a: Attempt, role: Role, b: RunBinding, state: AttemptState, outcome: Outcome, summary: string, error: string,
                          cleanup: Cleanup, at: int)
    requires ValidAttemptBinding(a, role, b) && ValidAttemptLifecycle(a) && a.state in {Dispatching, Submitted}
    requires ValidCleanup(cleanup) && summary != "" && state in {Finished, Crashed, AttemptReconcile}
    requires if state == AttemptReconcile then outcome == NoOutcome && error != "" else outcome != NoOutcome
    requires state == Crashed ==> outcome == OutCrashed
    ensures a.dispatch.Some?
    ensures var ended := a.(state := state, finishedAt := Some(at), outcome := outcome, summary := summary, error := error, cleanup := Some(cleanup));
            ValidAttemptBinding(ended, role, b) && ValidAttemptLifecycle(ended)
  {
    hide ValidCleanup;
    assert a.lease.stop.None? by {
      AdoptedStop(a.lease, ExpectedLeaseBinding(b, role, a.id, a.inputDigest, a.lease.binding.contextDigest,
                                                a.lease.binding.launchDigest, a.lease.binding.bindDeadlineAt));
    }
    hide ValidLease, ExpectedLeaseBinding, ValidCleanup;
  }

  lemma EndingCleanups(reason: string)
    requires reason != ""
    ensures ValidCleanup(PENDING_CLEANUP) && ValidCleanup(PENDING_CLEANUP.(state := CleanupReconcile, error := reason))
  {
  }

  /** The attempt an unreported end leaves. */
  function UnreportedAttempt(a: Attempt, outcome: Outcome, reason: string, at: int): Attempt {
    match outcome
    case NoOutcome =>
      a.(state := AttemptReconcile, finishedAt := Some(at), outcome := NoOutcome, error := reason,
         summary := WORKER_DOUBTED,
         cleanup := Some(PENDING_CLEANUP.(state := CleanupReconcile, error := reason)))
    case OutNeedsInput =>
      a.(state := Finished, finishedAt := Some(at), outcome := OutNeedsInput, summary := reason, error := "", cleanup := Some(PENDING_CLEANUP))
    case _ =>
      a.(state := Crashed, finishedAt := Some(at), outcome := OutCrashed, summary := reason, error := reason, cleanup := Some(PENDING_CLEANUP))
  }

  function UnreportedRoleState(outcome: Outcome): RoleState {
    match outcome
    case NoOutcome => RoleReconcile
    case OutNeedsInput => RoleNeedsInput
    case _ => RoleFailed
  }

  lemma UnreportedRecord(rec: RoleRecord, a: Attempt, outcome: Outcome, reason: string, at: int)
    requires rec.attempts == [a] && a.state in {Dispatching, Submitted} && reason != "" && a.dispatch.Some? && EndsUnreported(outcome)
    ensures UnreportedRole(rec, a.id, outcome, reason, at) ==
            Ok(rec.(state := UnreportedRoleState(outcome), attempts := [UnreportedAttempt(a, outcome, reason, at)]))
  {
    assert [a][0 := UnreportedAttempt(a, outcome, reason, at)] == [UnreportedAttempt(a, outcome, reason, at)];
  }

  lemma AtWorkEnds(rec: RoleRecord, role: Role, b: RunBinding, id: string, outcome: Outcome, reason: string, at: int) returns (rec': RoleRecord)
    requires ValidRole(rec, role, b) && EndsUnreported(outcome) && reason != "" && WorkerAtWork(rec, id)
    ensures UnreportedRole(rec, id, outcome, reason, at) == Ok(rec') && ValidRole(rec', role, b)
  {
    hide ValidRole, ValidAttemptBinding, ValidAttemptLifecycle, ValidCleanup, UnreportedRole, WithAttempt;
    var a := rec.attempts[0];
    Liveness.AttemptOf(rec, a, role, b);
    EndingCleanups(reason);
    match outcome {
      case NoOutcome =>
        var cleanup := PENDING_CLEANUP.(state := CleanupReconcile, error := reason);
        EndedAttemptValid(a, role, b, AttemptReconcile, NoOutcome, WORKER_DOUBTED, reason, cleanup, at);
      case OutNeedsInput => EndedAttemptValid(a, role, b, Finished, OutNeedsInput, reason, "", PENDING_CLEANUP, at);
      case _ => EndedAttemptValid(a, role, b, Crashed, OutCrashed, reason, reason, PENDING_CLEANUP, at);
    }
    UnreportedRecord(rec, a, outcome, reason, at);
    EndedValid(rec, a, role, b, UnreportedRoleState(outcome), UnreportedAttempt(a, outcome, reason, at));
    rec' := UnreportedRole(rec, id, outcome, reason, at).value;
  }

  lemma RoleUnderWay(rec: RoleRecord, role: Role, b: RunBinding)
    requires ValidRole(rec, role, b) && rec.attempts != [] && rec.attempts[|rec.attempts| - 1].state !in {Finished, Crashed, AttemptReconcile}
    ensures UnderWay(rec)
  {
    hide ValidAttemptBinding, ValidAttemptLifecycle, ReportFor;
  }

  lemma UnreportedState(rec: RoleRecord, role: Role, b: RunBinding, id: string, outcome: Outcome, reason: string, at: int, rec': RoleRecord)
    requires ValidRole(rec, role, b) && EndsUnreported(outcome) && UnreportedRole(rec, id, outcome, reason, at) == Ok(rec')
    ensures UnderWay(rec) && reason != "" && rec'.state == UnreportedRoleState(outcome)
  {
    hide ValidRole, UnderWay;
    RoleUnderWay(rec, role, b);
  }

  /** Blaming the run for a role accepts the copy exactly when the new record is valid. */
  lemma BlamedValid(r: Run, role: Role, rec': RoleRecord, condition: Condition, reason: string, at: int)
    requires ValidRun(r) && r.updatedAt <= at && r.phase != PhaseClosed && UnderWay(r.roles.Get(role)) && reason != ""
    requires match condition
             case AwaitingInput => rec'.state == RoleNeedsInput
             case RunFailed => rec'.state == RoleFailed
             case Reconciling => rec'.state == RoleReconcile
             case _ => false
    ensures ValidRun(Stamped(Blame(WithRole(r, role, rec'), condition, reason), at)) <==> ValidRole(rec', role, BindingOf(r))
  {
    hide ValidRun, ValidRole, CompletedAndCleaned, ReportComplete, ValidReceipts;
    var m := Blame(WithRole(r, role, rec'), condition, reason);
    Bound.GetWith(r.roles, role, rec');
    UnderWayFacts(r, role);
    if ValidRun(Stamped(m, at)) {
      Safety.ValidGet(Stamped(m, at), role);
    }
    if ValidRole(rec', role, BindingOf(r)) {
      ReplacedValid(r, role, m, at);
    }
  }

  /** Exactly when an attempt can be ended without a report: only while its adopted worker is at work. A
      provisional worker, still to be adopted, passes the guards and is refused by the validator. */
  lemma UnreportedAccepted(r: Run, role: Role, id: string, outcome: Outcome, reason: string, at: int)
    requires EndsUnreported(outcome) && r.phase != PhaseClosed
    ensures Perform(r, UnreportedStep(role, id, outcome, reason), at).Ok? <==>
      ValidRun(r) && r.updatedAt <= at && reason != "" && WorkerAtWork(r.roles.Get(role), id)
  {
    hide ValidRun, ValidRole, UnreportedRole, WorkerAtWork, Mutated, Blame, UnderWay, UnreportedStep;
    var rec := r.roles.Get(role);
    var effect := UnreportedRole(rec, id, outcome, reason, at);
    UnreportedCopy(r, role, id, outcome, reason, at);
    if ValidRun(r) && r.updatedAt <= at {
      Safety.ValidGet(r, role);
      if reason == "" {
        NeedsReason(rec, id, outcome, at);
      } else if effect.Ok? {
        UnreportedState(rec, role, BindingOf(r), id, outcome, reason, at, effect.value);
        BlamedValid(r, role, effect.value, UnreportedCondition(outcome), reason, at);
        if WorkerAtWork(rec, id) {
          var _ := AtWorkEnds(rec, role, BindingOf(r), id, outcome, reason, at);
        } else if ValidRole(effect.value, role, BindingOf(r)) {
          ProvisionalRefused(rec, role, BindingOf(r), id, outcome, reason, at, effect.value);
        }
      } else if WorkerAtWork(rec, id) {
        var _ := AtWorkEnds(rec, role, BindingOf(r), id, outcome, reason, at);
      }
    }
  }

  function UnreportedCondition(outcome: Outcome): Condition {
    match outcome
    case OutNeedsInput => AwaitingInput
    case OutCrashed => RunFailed
    case _ => Reconciling
  }

  lemma UnreportedCopy(r: Run, role: Role, id: string, outcome: Outcome, reason: string, at: int)
    requires EndsUnreported(outcome)
    ensures Mutated(r, UnreportedStep(role, id, outcome, reason), at)
            == match UnreportedRole(r.roles.Get(role), id, outcome, reason, at)
               case Ok(effect) => Ok(Blame(WithRole(r, role, effect), UnreportedCondition(outcome), reason))
               case Err(code) => Err(code)
  {
    hide UnreportedRole, Blame, LocalMutation, RecordReportStep, CompileStep;
  }

  lemma NeedsReason(rec: RoleRecord, id: string, outcome: Outcome, at: int)
    ensures UnreportedRole(rec, id, outcome, "", at).Err?
  {
  }

  /** An attempt without an adopted worker is never ended this way, in any run. */
  lemma ProvisionalNeverEnds(r: Run, role: Role, id: string, outcome: Outcome, reason: string, at: int, a: Attempt)
    requires EndsUnreported(outcome) && a in r.roles.Get(role).attempts && a.dispatch.None?
    ensures Perform(r, UnreportedStep(role, id, outcome, reason), at).Err?
  {
    hide ValidRun, ValidRole, UnreportedRole, Mutated, Blame, UnreportedStep;
    var step := UnreportedStep(role, id, outcome, reason);
    if Perform(r, step, at).Ok? {
      var rec := r.roles.Get(role);
      UnreportedCopy(r, role, id, outcome, reason, at);
      var effect := UnreportedRole(rec, id, outcome, reason, at).value;
      Safety.ValidGet(r, role);
      Safety.ValidGet(Perform(r, step, at).value, role);
      BlamedRecord(r, role, effect, UnreportedCondition(outcome), reason, at);
      ProvisionalRefused(rec, role, BindingOf(r), id, outcome, reason, at, effect);
      AtWorkAdopted(rec, role, BindingOf(r), id);
      assert false;
    }
  }

  lemma BlamedRecord(r: Run, role: Role, rec': RoleRecord, condition: Condition, reason: string, at: int)
    ensures var next := Stamped(Blame(WithRole(r, role, rec'), condition, reason), at);
            next.roles.Get(role) == rec' && BindingOf(next) == BindingOf(r)
  {
    Bound.GetWith(r.roles, role, rec');
  }

  lemma AtWorkAdopted(rec: RoleRecord, role: Role, b: RunBinding, id: string)
    requires ValidRole(rec, role, b) && WorkerAtWork(rec, id)
    ensures forall a :: a in rec.attempts ==> a.dispatch.Some?
  {
    hide ValidRole;
    AttemptsValid(rec, role, b);
    assert rec.attempts[0] in rec.attempts;
  }

  /** The exact condition over whole executions, closed runs included. */
  lemma UnreportedInRun(o: Origin, events: seq<Event>, r: Run, role: Role, id: string, outcome: Outcome, reason: string, at: int)
    requires Reaches(o, events, r) && EndsUnreported(outcome)
    ensures Perform(r, UnreportedStep(role, id, outcome, reason), at).Ok? <==>
      r.updatedAt <= at && reason != "" && WorkerAtWork(r.roles.Get(role), id)
  {
    hide Reaches, ValidRun, Perform, Shaped, Potential;
    Bound.RunLength(o, events, r);
    if r.phase == PhaseClosed {
      Bound.TerminalIsFinal(o, events, r, UnreportedStep(role, id, outcome, reason), at);
      ClosedAtRest(r, role);
    } else {
      UnreportedAccepted(r, role, id, outcome, reason, at);
    }
  }

  lemma ClosedAtRest(r: Run, role: Role)
    requires Shaped(r) && r.phase == PhaseClosed
    ensures forall a :: a in r.roles.Get(role).attempts ==> a.state !in {Dispatching, Submitted}
  {
    assert RoleShape(r.roles.Get(role)) && Settled(r.roles.Get(role));
  }
}
