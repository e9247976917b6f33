/** The steps of a Planning Run: each changes a copy of the run, and the changed copy is stored
    only when the validator accepts it. */
module PlanningSteps {
  import opened Errors
  import opened Wrappers
  import opened DeliveryPlans
  import opened PlanningRuns

  datatype LeaseRef = LeaseRef(leaseId: LeaseToken, scopeUnit: Scope, scopeDigest: Scope)

  datatype Step =
    | ClaimSpawn(role: Role, attemptId: string, binding: LeaseBinding)
    | BindLease(role: Role, attemptId: string, lease: LeaseRef, pane: Pane)
    | RequireLeaseReconcile(role: Role, attemptId: string, lease: LeaseRef, reason: string)
    | CloseLeaseAbsent(role: Role, attemptId: string, lease: LeaseRef, reason: string)
    | ClaimStop(role: Role, attemptId: string, leaseId: LeaseToken, claimId: string, operatorConfirmed: bool)
    | SendStop(role: Role, attemptId: string, leaseId: LeaseToken, claimId: string)
    | CompleteStop(role: Role, attemptId: string, lease: LeaseRef, claimId: string, reason: string)
    | ClaimDispatch(role: Role, attemptId: string, leaseId: LeaseToken, dispatch: Dispatch)
    | MarkDispatched(role: Role, attemptId: string)
    | RecordReport(role: Role, attemptId: string, report: Report, outputDigest: Report, envelopeFits: bool, candidateFits: bool)
    | WaitForResources(role: Role, reason: string)
    | RequireInput(role: Role, attemptId: string, reason: string)
    | RecordCrash(role: Role, attemptId: string, reason: string)
    | RequireRoleReconcile(role: Role, attemptId: string, reason: string)
    | ClaimCleanup(role: Role, attemptId: string, claimId: string)
    | SendCleanup(role: Role, attemptId: string)
    | CompleteCleanup(role: Role, attemptId: string)
    | RequireCleanupReconcile(role: Role, attemptId: string, error: string)
    | RecoverCleanup(role: Role, attemptId: string, outcome: RecoveryOutcome, claimId: string)
    | RetryResources(operationId: string, role: Role, storeRevision: int, runRevision: int)
    | ContinueCleanup(operationId: string, role: Role, attemptId: string, claimId: string, outcome: RecoveryOutcome,
                      storeRevision: int, runRevision: int)
    | CompileCandidate
    | ClaimApply(applyClaimId: string, candidateDigest: CandidateDigest)
    | MarkApplied(applyClaimId: string, candidateDigest: CandidateDigest, planRevision: int, planDigest: Definition)
    | RequireApplyReconcile(applyClaimId: string, error: string)
    | AbandonApply(applyClaimId: string, candidateDigest: CandidateDigest, reason: string)
    | LeaveCourse(reason: string)
    | CancelRun(operatorConfirmed: bool, reason: string)

  // ---------------------------------------------------------------- shared pieces

  function PhaseRoles(p: RunPhase): set<Role> {
    match p
    case PhasePo => {PO}
    case PhaseBa => {BA}
    case PhaseChallenge => {QA, DEV}
    case _ => {}
  }

  /** The run still hands out roles. */
  predicate Alive(c: Condition) {
    c == Active || c == ResourceWait
  }

  predicate Eligible(r: Run, role: Role) {
    && Alive(r.condition) && role in PhaseRoles(r.phase)
    && r.roles.Get(role).state == Pending && r.roles.Get(role).attempts == []
  }

  function Selected(rec: RoleRecord, attemptId: string): Result<Attempt> {
    if rec.attempts == [] then Err(PlanningAttemptMissing) else
    var a := rec.attempts[|rec.attempts| - 1];
    if a.id != attemptId then Err(PlanningAttemptBindingMismatch) else
    Ok(a)
  }

  function WithAttempt(rec: RoleRecord, a: Attempt): (updated: RoleRecord)
    requires rec.attempts != []
    ensures |updated.attempts| == |rec.attempts|
  {
    rec.(attempts := rec.attempts[|rec.attempts| - 1 := a])
  }

  function WithRole(r: Run, role: Role, rec: RoleRecord): Run {
    r.(roles := r.roles.With(role, rec))
  }

  /** A problem takes over the run's condition unless the run is already off course. */
  function Blame(r: Run, condition: Condition, reason: string): Run {
    if r.condition == OffCourse then r else r.(condition := condition, blocker := reason)
  }

  predicate RefersTo(ref: LeaseRef, l: SpawnLease) {
    ref.leaseId == l.binding.leaseId && ref.scopeUnit == l.binding.scopeUnit && ref.scopeDigest == l.binding.scopeDigest
  }

  const PENDING_CLEANUP := Cleanup(CleanupPending, "", None, None, None, "", NoRecovery, None, 0, [])

  /** What no step changes: the identity of the run, its source plan, its creation time, and the
      revision, which only storing the result advances. */
  predicate SameIdentity(r: Run, m: Run) {
    BindingOf(m) == BindingOf(r) && m.sourcePlan == r.sourcePlan && m.createdAt == r.createdAt && m.revision == r.revision
  }

  // ---------------------------------------------------------------- spawn leases

  function SpawnRole(rec: RoleRecord, role: Role, b: RunBinding, inputDigest: InputDigest, attemptId: string,
                     binding: LeaseBinding, at: int): Result<RoleRecord> {
    var lease := SpawnLease(binding, at, LeaseClaimed, NO_OBSERVATION, None, "");
    if !ValidLease(lease, ExpectedLeaseBinding(b, role, attemptId, inputDigest, binding.contextDigest, binding.launchDigest,
                                               binding.bindDeadlineAt))
    then Err(PlanningSpawnLeaseBindingMismatch) else
    Ok(rec.(state := SpawnClaimed, inputDigest := Some(inputDigest),
            attempts := rec.attempts + [Attempt(attemptId, role, Spawning, inputDigest, lease, None, at, None, None, None,
                                                NoOutcome, "", "", None)]))
  }

  function BindRole(rec: RoleRecord, attemptId: string, ref: LeaseRef, pane: Pane, at: int): Result<RoleRecord> {
    var a :- Selected(rec, attemptId);
    if !ValidPane(pane) then Err(PlanningSpawnLeaseBindObservationInvalid) else
    if a.lease.state != LeaseClaimed || rec.state != SpawnClaimed || a.state != Spawning
    then Err(PlanningSpawnLeaseStateConflict) else
    if !RefersTo(ref, a.lease) then Err(PlanningSpawnLeaseBindingMismatch) else
    if at > a.lease.binding.bindDeadlineAt then Err(PlanningSpawnLeaseBindDeadlineExpired) else
    Ok(WithAttempt(rec, a.(lease := a.lease.(state := LeaseBound,
                                             observed := Observed(ExactPane, Some(BoundPane(pane, at)), Some(at))))))
  }

  const ABSENT := "Provisional planning worker was " + "observed absent before dispatch."
  const DOUBTED := "Exact cleanup state " + "requires operator reconciliation."
  const UNATTESTED := "Provisional planning worker " + "requires exact scope reconciliation."
  const WORKER_DOUBTED := "Exact worker state " + "requires operator reconciliation."

  function ReconcileLeaseRole(rec: RoleRecord, attemptId: string, ref: LeaseRef, reason: string, at: int): Result<RoleRecord> {
    var a :- Selected(rec, attemptId);
    if reason == "" then Err(PlanningSpawnLeaseErrorInvalid) else
    if a.lease.state !in {LeaseClaimed, LeaseBound} || rec.state != SpawnClaimed || a.state != Spawning
    then Err(PlanningSpawnLeaseStateConflict) else
    if !RefersTo(ref, a.lease) then Err(PlanningSpawnLeaseBindingMismatch) else
    if at < a.lease.binding.bindDeadlineAt then Err(PlanningSpawnLeaseDeadlineNotReached) else
    Ok(WithAttempt(rec.(state := RoleReconcile),
                   a.(state := AttemptReconcile, finishedAt := Some(at), error := reason,
                      summary := UNATTESTED,
                      lease := a.lease.(state := LeaseReconcile, error := reason,
                                        observed := a.lease.observed.(status := PresentUnattestable, observedAt := Some(at))))))
  }

  /** The provisional worker is gone: its lease closes and the role fails. */
  function ClosedProvisional(rec: RoleRecord, a: Attempt, lease: SpawnLease, reason: string, at: int): RoleRecord
    requires rec.attempts != []
  {
    WithAttempt(rec.(state := RoleFailed),
                a.(state := Crashed, finishedAt := Some(if a.finishedAt.Some? then a.finishedAt.value else at),
                   outcome := OutCrashed, error := reason, cleanup := None,
                   summary := ABSENT,
                   lease := lease.(state := LeaseClosed, error := reason,
                                   observed := lease.observed.(status := ScopeAndPaneAbsent, observedAt := Some(at)))))
  }

  function CloseLeaseRole(rec: RoleRecord, attemptId: string, ref: LeaseRef, reason: string, at: int): Result<RoleRecord> {
    var a :- Selected(rec, attemptId);
    if reason == "" then Err(PlanningSpawnLeaseErrorInvalid) else
    if a.lease.state !in {LeaseClaimed, LeaseBound, LeaseReconcile} then Err(PlanningSpawnLeaseStateConflict) else
    if !RefersTo(ref, a.lease) then Err(PlanningSpawnLeaseBindingMismatch) else
    if a.lease.stop.Some? then Err(PlanningSpawnLeaseCleanupStateConflict) else
    Ok(ClosedProvisional(rec, a, a.lease, reason, at))
  }

  function ClaimStopRole(rec: RoleRecord, attemptId: string, leaseId: LeaseToken, claimId: string, confirmed: bool, at: int): Result<RoleRecord> {
    var a :- Selected(rec, attemptId);
    if claimId == "" || !confirmed then Err(PlanningSpawnLeaseCleanupConfirmationRequired) else
    if a.lease.state != LeaseReconcile || a.state != AttemptReconcile || a.lease.stop.Some?
    then Err(PlanningSpawnLeaseCleanupStateConflict) else
    if leaseId != a.lease.binding.leaseId then Err(PlanningSpawnLeaseBindingMismatch) else
    Ok(WithAttempt(rec, a.(lease := a.lease.(stop := Some(StopRequest(StopClaimed, claimId, at, None, None, NothingSeen))))))
  }

  function SendStopRole(rec: RoleRecord, attemptId: string, leaseId: LeaseToken, claimId: string, at: int): Result<RoleRecord> {
    var a :- Selected(rec, attemptId);
    if a.lease.state != LeaseReconcile || leaseId != a.lease.binding.leaseId || a.lease.stop.None?
       || a.lease.stop.value.state != StopClaimed || a.lease.stop.value.claimId != claimId
    then Err(PlanningSpawnLeaseCleanupStateConflict) else
    Ok(WithAttempt(rec, a.(lease := a.lease.(stop := Some(a.lease.stop.value.(state := StopSent, sentAt := Some(at)))))))
  }

  function CompleteStopRole(rec: RoleRecord, attemptId: string, ref: LeaseRef, claimId: string, reason: string, at: int): Result<RoleRecord> {
    var a :- Selected(rec, attemptId);
    if reason == "" then Err(PlanningSpawnLeaseErrorInvalid) else
    if a.lease.state != LeaseReconcile then Err(PlanningSpawnLeaseStateConflict) else
    if !RefersTo(ref, a.lease) then Err(PlanningSpawnLeaseBindingMismatch) else
    if a.lease.stop.None? || a.lease.stop.value.state !in {StopClaimed, StopSent}
       || a.lease.stop.value.claimId != claimId then Err(PlanningSpawnLeaseCleanupStateConflict) else
    var stop := a.lease.stop.value.(state := StopComplete, completedAt := Some(at), observation := ScopeAndPaneAbsent);
    Ok(ClosedProvisional(rec, a, a.lease.(stop := Some(stop)), reason, at))
  }

  // ---------------------------------------------------------------- dispatch and reports

  function DispatchRole(rec: RoleRecord, attemptId: string, leaseId: LeaseToken, dispatch: Dispatch, at: int): Result<RoleRecord> {
    var a :- Selected(rec, attemptId);
    if !ValidPane(dispatch.worker.pane) || dispatch.worker.codexPid < 1 then Err(PlanningWorkerInvalid) else
    if a.state != Spawning || rec.state != SpawnClaimed then Err(PlanningRoleStateConflict) else
    var lease := a.lease.(state := LeaseAdopted);
    if a.lease.state != LeaseBound || leaseId != a.lease.binding.leaseId
       || !WorkerMatchesLease(dispatch.worker, lease) then Err(PlanningSpawnLeaseBindingMismatch) else
    Ok(WithAttempt(rec.(state := DispatchClaimed),
                   a.(state := Dispatching, lease := lease, dispatch := Some(dispatch), dispatchClaimedAt := Some(at))))
  }

  function SubmitRole(rec: RoleRecord, attemptId: string, at: int): Result<RoleRecord> {
    var a :- Selected(rec, attemptId);
    if a.state != Dispatching || rec.state != DispatchClaimed then Err(PlanningRoleStateConflict) else
    Ok(WithAttempt(rec.(state := Dispatched), a.(state := Submitted, submittedAt := Some(at))))
  }

  function FinishedAttempt(a: Attempt, outcome: Outcome, summary: string, error: string, at: int): Attempt {
    a.(state := Finished, finishedAt := Some(at), outcome := outcome, summary := summary, error := error,
       cleanup := if a.dispatch.Some? then Some(PENDING_CLEANUP) else None)
  }

  function StatusOutcome(s: Status): Outcome {
    match s
    case StComplete => OutComplete
    case StNeedsInput => OutNeedsInput
    case StBlocked => OutBlocked
    case StFailed => OutFailed
  }

  function Joined(lines: seq<string>): string {
    if lines == [] then "" else if |lines| == 1 then lines[0] else lines[0] + "; " + Joined(lines[1..])
  }

  function Cut(text: string): string {
    if |text| <= 800 then text else text[..800]
  }

  function ReportSummary(role: Role, status: Status): (summary: string)
    ensures summary != ""
  {
    RoleLabel(role) + " planning report " + StatusName(status) + "."
  }

  function ReportRole(rec: RoleRecord, role: Role, b: RunBinding, attemptId: string, report: Report, outputDigest: Report, at: int): Result<RoleRecord> {
    var a :- Selected(rec, attemptId);
    if rec.state != Dispatched || a.state != Submitted || rec.inputDigest.None?
    then Err(PlanningReportNotExpected) else
    if !ReportFor(report, b, role, a.id, rec.inputDigest.value) then Err(ReportBindingMismatch) else
    if outputDigest != report then Err(PlanningReportOutputDigestMismatch) else
    var state := match report.status
                 case StComplete => Completed
                 case StNeedsInput => RoleNeedsInput
                 case _ => RoleFailed;
    Ok(WithAttempt(rec.(state := state, report := Some(report), outputDigest := Some(report)),
                   FinishedAttempt(a, StatusOutcome(report.status), ReportSummary(role, report.status),
                                   if report.status in {StBlocked, StFailed} then Cut(Joined(report.challenges)) else "", at)))
  }

  function ReportBlocker(role: Role, report: Report): string {
    if report.status == StComplete then ""
    else if Joined(report.challenges) != "" then Cut(Joined(report.challenges))
    else "The " + RoleLabel(role) + " role returned " + StatusName(report.status) + "."
  }

  function ReportCondition(condition: Condition, report: Report): Condition {
    if condition == OffCourse then OffCourse
    else match report.status
         case StComplete => condition
         case StNeedsInput => AwaitingInput
         case _ => RunFailed
  }

  function SynthesisReason(code: Error): (reason: string)
    ensures reason != ""
  {
    if code == PlanningCandidateTooLarge then "The accepted role reports exceed the bounded Planning Run candidate size."
    else if code == PlanningCandidateUnchanged then "The accepted role reports do not change the frozen source Delivery Plan."
    else "The accepted role reports cannot form a schema-valid Delivery Plan candidate."
  }

  /** Trial synthesis once both peer reports exist: a failure is remembered and stops the run. */
  function TrialSynthesis(next: Run, condition: Condition, candidateFits: bool, at: int): Result<Run> {
    var built := BuildCandidate(next, at);
    if built.Ok? && candidateFits then Ok(next)
    else
      var code := if built.Ok? then PlanningCandidateTooLarge else built.code;
      if code !in {PlanningCandidateInvalid, PlanningCandidateUnchanged, PlanningCandidateTooLarge} then Err(code) else
      var blocked := next.(synthesisBlocker := Some(SynthesisBlocker(code, SynthesisReason(code), at)));
      Ok(if condition == OffCourse then blocked else blocked.(condition := AwaitingInput, blocker := SynthesisReason(code)))
  }

  function RecordReportStep(r: Run, role: Role, attemptId: string, report: Report, outputDigest: Report, envelopeFits: bool, candidateFits: bool,
                            at: int): Result<Run> {
    var rec :- ReportRole(r.roles.Get(role), role, BindingOf(r), attemptId, report, outputDigest, at);
    if report.status == StComplete && role in {PO, BA} && !envelopeFits then Err(PlanningRoleEnvelopeTooLong) else
    var next := WithRole(r, role, rec).(condition := ReportCondition(r.condition, report),
                                        blocker := if r.condition == OffCourse then r.blocker else ReportBlocker(role, report));
    if report.status == StComplete && role in {QA, DEV} && next.roles.qa.report.Some? && next.roles.dev.report.Some?
    then TrialSynthesis(next, r.condition, candidateFits, at)
    else Ok(next)
  }

  function UnreportedRole(rec: RoleRecord, attemptId: string, outcome: Outcome, reason: string, at: int): Result<RoleRecord> {
    var a :- Selected(rec, attemptId);
    if reason == "" then Err(PlanningRoleFailureReasonInvalid) else
    if a.state in {Finished, Crashed, AttemptReconcile} then Err(PlanningAttemptStateConflict) else
    match outcome
    case NoOutcome =>
      Ok(WithAttempt(rec.(state := RoleReconcile),
                     a.(state := AttemptReconcile, finishedAt := Some(at), outcome := NoOutcome, error := reason,
                        summary := WORKER_DOUBTED,
                        cleanup := if a.dispatch.Some? then Some(PENDING_CLEANUP.(state := CleanupReconcile, error := reason)) else None)))
    case OutNeedsInput => Ok(WithAttempt(rec.(state := RoleNeedsInput), FinishedAttempt(a, OutNeedsInput, reason, "", at)))
    case _ => Ok(WithAttempt(rec.(state := RoleFailed), FinishedAttempt(a, OutCrashed, reason, reason, at).(state := Crashed)))
  }

  // ---------------------------------------------------------------- worker cleanup

  function SelectedCleanup(rec: RoleRecord, attemptId: string): Result<(Attempt, Cleanup)> {
    var a :- Selected(rec, attemptId);
    if a.cleanup.None? then Err(PlanningCleanupNotRequired) else
    Ok((a, a.cleanup.value))
  }

  function WithCleanup(rec: RoleRecord, a: Attempt, c: Cleanup): RoleRecord
    requires rec.attempts != []
  {
    WithAttempt(rec, a.(cleanup := Some(c)))
  }

  /** The record with another cleanup on its last attempt. */
  function Recleaned(rec: RoleRecord, c: Cleanup): RoleRecord {
    if rec.attempts == [] then rec else WithCleanup(rec, rec.attempts[|rec.attempts| - 1], c)
  }

  function ClaimCleanupRole(rec: RoleRecord, attemptId: string, claimId: string, at: int): Result<RoleRecord> {
    var (a, c) :- SelectedCleanup(rec, attemptId);
    if claimId == "" then Err(PlanningClaimIdInvalid) else
    if c.state != CleanupPending then Err(PlanningCleanupStateConflict) else
    Ok(WithCleanup(rec, a, c.(state := CleanupClaimed, claimId := claimId, claimedAt := Some(at))))
  }

  function SendCleanupRole(rec: RoleRecord, attemptId: string, at: int): Result<RoleRecord> {
    var (a, c) :- SelectedCleanup(rec, attemptId);
    if c.state != CleanupClaimed then Err(PlanningCleanupStateConflict) else
    Ok(WithCleanup(rec, a, c.(state := CleanupSent, sentAt := Some(at))))
  }

  function CompleteCleanupRole(rec: RoleRecord, attemptId: string, at: int): Result<RoleRecord> {
    var (a, c) :- SelectedCleanup(rec, attemptId);
    if c.state != CleanupSent then Err(PlanningCleanupStateConflict) else
    Ok(WithCleanup(rec, a, c.(state := CleanupComplete, completedAt := Some(at))))
  }

  function ReconcileCleanupRole(rec: RoleRecord, attemptId: string, error: string): Result<RoleRecord> {
    var (a, c) :- SelectedCleanup(rec, attemptId);
    if error == "" then Err(PlanningCleanupErrorInvalid) else
    if c.state in {CleanupComplete, CleanupReconcile} || c.recoveryCount >= MAX_CLEANUP_RECOVERIES
    then Err(PlanningCleanupStateConflict) else
    Ok(WithCleanup(rec.(state := RoleReconcile),
                   a.(state := AttemptReconcile, outcome := NoOutcome, error := error,
                      summary := DOUBTED),
                   c.(state := CleanupReconcile, error := error)))
  }

  function Recovered(c: Cleanup, outcome: RecoveryOutcome, claimId: string, at: int): Cleanup {
    Cleanup(if outcome == WorkerAbsent then CleanupComplete else CleanupClaimed, claimId,
            if outcome == ExactWorker then Some(at) else None, None,
            if outcome == WorkerAbsent then Some(at) else None, "", outcome, Some(at),
            c.recoveryCount + 1, c.history + [Recovery(outcome, claimId, at)])
  }

  function RecoverRole(rec: RoleRecord, attemptId: string, outcome: RecoveryOutcome, claimId: string, at: int): Result<RoleRecord> {
    var (a, c) :- SelectedCleanup(rec, attemptId);
    if outcome == NoRecovery || !(outcome == WorkerAbsent <==> claimId == "")
    then Err(PlanningCleanupRecoveryClaimInvalid) else
    if rec.state != RoleReconcile || a.state != AttemptReconcile || c.state != CleanupReconcile
       || c.recoveryCount >= MAX_CLEANUP_RECOVERIES then Err(PlanningCleanupRecoveryNotExpected) else
    if outcome == ExactWorker && c.recoveryCount >= 2 then Err(PlanningCleanupRecoveryOutcomeConflict) else
    if outcome == ExactWorker && (c.claimId == claimId || exists i :: 0 <= i < |c.history| && c.history[i].claimId == claimId)
    then Err(PlanningCleanupRecoveryClaimConflict) else
    Ok(WithCleanup(rec, a, Recovered(c, outcome, claimId, at)))
  }

  /** What an authorised continuation does to the cleanup: claim it, keep the claim, or recover it. */
  function ContinueCleanupRole(rec: RoleRecord, attemptId: string, claimId: string, outcome: RecoveryOutcome, at: int): Result<RoleRecord> {
    var (a, c) :- SelectedCleanup(rec, attemptId);
    if claimId == "" || outcome == WorkerAbsent then Err(PlanningContinueRecoveryOutcomeInvalid) else
    if c.state == CleanupPending && outcome == NoRecovery then
      Ok(WithCleanup(rec, a, c.(state := CleanupClaimed, claimId := claimId, claimedAt := Some(at))))
    else if c.state == CleanupClaimed && c.claimId == claimId && outcome == NoRecovery then Ok(rec)
    else if c.state == CleanupReconcile && rec.state == RoleReconcile && a.state == AttemptReconcile
            && outcome == ExactWorker && c.recoveryCount < 2 && c.claimId != claimId then
      Ok(WithCleanup(rec, a, Recovered(c, ExactWorker, claimId, at)))
    else Err(PlanningContinueNotAllowed)
  }

  /** The phase moves on once its roles are completed and cleaned up, but only in an active run. */
  function AdvancedPhase(r: Run, role: Role): RunPhase {
    if r.condition != Active then r.phase
    else if role == PO && r.phase == PhasePo && CompletedAndCleaned(r.roles.po) then PhaseBa
    else if role == BA && r.phase == PhaseBa && CompletedAndCleaned(r.roles.ba) then PhaseChallenge
    else if role in {QA, DEV} && r.phase == PhaseChallenge && CompletedAndCleaned(r.roles.qa) && CompletedAndCleaned(r.roles.dev)
    then PhaseSynthesis
    else r.phase
  }

  // ---------------------------------------------------------------- continue receipts

  /** The receipt limits and the uniqueness of operations and cleanup intents. */
  predicate ReceiptAllowed(r: Run, x: Receipt) {
    && x.operationId != "" && x.requestedStoreRevision >= 0 && x.requestedRunRevision == r.revision
    && |r.receipts| < MAX_RECEIPTS && CountKind(r.receipts, x.kind) < MAX_RECEIPTS_PER_KIND
    && forall y :: y in r.receipts ==> y.operationId != x.operationId && !(x.kind == CleanupOnly && SameIntent(x, y))
  }

  predicate RetryAllowed(r: Run, role: Role) {
    && Eligible(r, role) && CountKind(r.receipts, ResourceRetry) < MAX_RECEIPTS_PER_KIND
    && (r.condition == ResourceWait || CountKind(r.receipts, ResourceRetry) == 0)
  }

  // ---------------------------------------------------------------- apply, off course, cancel

  function CompileStep(r: Run, at: int): Result<Run> {
    if r.phase != PhaseSynthesis || r.condition != Active then Err(PlanningSynthesisNotReady) else
    var built := BuildCandidate(r, at);
    if built.Ok? then
      Ok(r.(phase := PhaseReview, candidate := Some(built.value), synthesisBlocker := None, applyOutbox := EmptyOutbox(at), blocker := ""))
    else
      if built.code !in {PlanningCandidateInvalid, PlanningCandidateUnchanged} then Err(built.code) else
      Ok(r.(condition := AwaitingInput, blocker := SynthesisReason(built.code), candidate := None,
            synthesisBlocker := Some(SynthesisBlocker(built.code, SynthesisReason(built.code), at)), applyOutbox := EmptyOutbox(at)))
  }

  function ClaimApplyStep(r: Run, claimId: string, digest: CandidateDigest, at: int): Result<Run> {
    if claimId == "" then Err(PlanningClaimIdInvalid) else
    if r.phase != PhaseReview || r.condition != Active || r.candidate.None?
       || r.candidate.value.digest != digest || !r.candidate.value.ready || r.applyOutbox.state != Held
    then Err(PlanningCandidateNotApplyable) else
    Ok(r.(applyOutbox := ApplyOutbox(ApplyClaimed, Some(digest), claimId, Some(at), None, None, None, false, "", at)))
  }

  function AppliedStep(r: Run, claimId: string, digest: CandidateDigest, planRevision: int, planDigest: Definition,
                       at: int): Result<Run> {
    if !(r.condition == Active && r.applyOutbox.state == ApplyClaimed)
       && !(r.condition == Reconciling && r.applyOutbox.state == ApplyReconcile)
    then Err(PlanningApplyBindingConflict) else
    if claimId == "" || r.applyOutbox.claimId != claimId || r.applyOutbox.candidateDigest != Some(digest)
       || planRevision != r.planRevision + 1 || r.candidate.None?
       || planDigest != r.candidate.value.previewPlanDigest then Err(PlanningApplyBindingConflict) else
    Ok(r.(phase := PhaseApplied, condition := Active, blocker := "",
          applyOutbox := r.applyOutbox.(state := ApplyApplied, appliedPlanRevision := Some(planRevision),
                                        appliedPlanDigest := Some(planDigest), appliedAt := Some(at),
                                        receiptAbsent := false, error := "", updatedAt := at)))
  }

  function ReconcileApplyStep(r: Run, claimId: string, error: string, at: int): Result<Run> {
    if error == "" then Err(PlanningApplyErrorInvalid) else
    if r.condition != Active || r.applyOutbox.state != ApplyClaimed || r.applyOutbox.claimId != claimId
    then Err(PlanningApplyBindingConflict) else
    Ok(r.(condition := Reconciling, blocker := error,
          applyOutbox := r.applyOutbox.(state := ApplyReconcile, error := error, updatedAt := at)))
  }

  function AbandonStep(r: Run, claimId: string, digest: CandidateDigest, reason: string, at: int): Result<Run> {
    if reason == "" then Err(PlanningApplyErrorInvalid) else
    if r.phase != PhaseReview || r.condition != OffCourse
       || r.applyOutbox.state !in {ApplyClaimed, ApplyReconcile} || r.applyOutbox.claimId != claimId
       || r.applyOutbox.candidateDigest != Some(digest) then Err(PlanningApplyBindingConflict) else
    Ok(r.(applyOutbox := r.applyOutbox.(state := Abandoned, receiptAbsent := true, error := reason, updatedAt := at)))
  }

  predicate Terminal(r: Run) {
    r.phase == PhaseApplied || r.phase == PhaseClosed
  }

  predicate UnresolvedRole(rec: RoleRecord) {
    rec.attempts != [] &&
    var a := rec.attempts[|rec.attempts| - 1];
    || (a.lease.state != LeaseClosed && !(a.lease.state == LeaseAdopted && a.cleanup.Some? && a.cleanup.value.state == CleanupComplete))
    || a.state in {Spawning, Dispatching, Submitted}
    || (a.cleanup.Some? && a.cleanup.value.state != CleanupComplete)
  }

  predicate UnresolvedWorker(r: Run) {
    || r.applyOutbox.state in {ApplyClaimed, ApplyReconcile}
    || UnresolvedRole(r.roles.po) || UnresolvedRole(r.roles.ba) || UnresolvedRole(r.roles.qa) || UnresolvedRole(r.roles.dev)
  }

  function OffCourseStep(r: Run, reason: string): Result<Run> {
    if reason == "" then Err(PlanningOffCourseReasonInvalid) else
    if Terminal(r) || r.condition == OffCourse then Err(PlanningTerminal) else
    Ok(r.(condition := OffCourse, blocker := reason))
  }

  function CancelStep(r: Run, confirmed: bool, reason: string): Result<Run> {
    if !confirmed || reason == "" then Err(PlanningCancelConfirmationRequired) else
    if Terminal(r) then Err(PlanningTerminal) else
    if UnresolvedWorker(r) then Err(PlanningCleanupRequired) else
    Ok(r.(phase := PhaseClosed, condition := RunCanceled, blocker := reason))
  }

  // ---------------------------------------------------------------- all steps

  /** The role a step is for; none for a step on the run as a whole. */
  function RoleOf(s: Step): Option<Role> {
    if s.CompileCandidate? || s.ClaimApply? || s.MarkApplied? || s.RequireApplyReconcile? || s.AbandonApply? || s.LeaveCourse? || s.CancelRun?
    then None else Some(s.role)
  }

  /** Steps that only change the record of one role. */
  predicate LocalStep(s: Step) {
    s.BindLease? || s.ClaimStop? || s.SendStop? || s.ClaimDispatch? || s.MarkDispatched?
    || s.ClaimCleanup? || s.SendCleanup? || s.CompleteCleanup? || s.RecoverCleanup?
  }

  /** Steps that change the record of one role and blame the run for it. */
  predicate BlamingStep(s: Step) {
    s.RequireLeaseReconcile? || s.CloseLeaseAbsent? || s.CompleteStop? || s.RequireInput? || s.RecordCrash?
    || s.RequireRoleReconcile? || s.RequireCleanupReconcile?
  }

  /** What a local or blaming step does to the record of its role; other steps do nothing to it here. */
  function LocalEffect(rec: RoleRecord, s: Step, at: int): Result<RoleRecord> {
    match s
    case BindLease(_, id, ref, pane) => BindRole(rec, id, ref, pane, at)
    case ClaimStop(_, id, leaseId, claimId, confirmed) => ClaimStopRole(rec, id, leaseId, claimId, confirmed, at)
    case SendStop(_, id, leaseId, claimId) => SendStopRole(rec, id, leaseId, claimId, at)
    case ClaimDispatch(_, id, leaseId, dispatch) => DispatchRole(rec, id, leaseId, dispatch, at)
    case MarkDispatched(_, id) => SubmitRole(rec, id, at)
    case ClaimCleanup(_, id, claimId) => ClaimCleanupRole(rec, id, claimId, at)
    case SendCleanup(_, id) => SendCleanupRole(rec, id, at)
    case CompleteCleanup(_, id) => CompleteCleanupRole(rec, id, at)
    case RecoverCleanup(_, id, outcome, claimId) => RecoverRole(rec, id, outcome, claimId, at)
    case RequireLeaseReconcile(_, id, ref, reason) => ReconcileLeaseRole(rec, id, ref, reason, at)
    case CloseLeaseAbsent(_, id, ref, reason) => CloseLeaseRole(rec, id, ref, reason, at)
    case CompleteStop(_, id, ref, claimId, reason) => CompleteStopRole(rec, id, ref, claimId, reason, at)
    case RequireInput(_, id, reason) => UnreportedRole(rec, id, OutNeedsInput, reason, at)
    case RecordCrash(_, id, reason) => UnreportedRole(rec, id, OutCrashed, reason, at)
    case RequireRoleReconcile(_, id, reason) => UnreportedRole(rec, id, NoOutcome, reason, at)
    case RequireCleanupReconcile(_, id, error) => ReconcileCleanupRole(rec, id, error)
    case _ => Ok(rec)
  }

  function BlamedCondition(s: Step): Condition {
    if s.RequireInput? then AwaitingInput
    else if s.CloseLeaseAbsent? || s.CompleteStop? || s.RecordCrash? then RunFailed
    else Reconciling
  }

  function BlameReason(s: Step): string {
    match s
    case RequireLeaseReconcile(_, _, _, reason) => reason
    case CloseLeaseAbsent(_, _, _, reason) => reason
    case CompleteStop(_, _, _, _, reason) => reason
    case RequireInput(_, _, reason) => reason
    case RecordCrash(_, _, reason) => reason
    case RequireRoleReconcile(_, _, reason) => reason
    case RequireCleanupReconcile(_, _, error) => error
    case _ => ""
  }

  function LocalMutation(r: Run, s: Step, at: int): Result<Run> {
    if s.RecoverCleanup? && r.condition !in {Reconciling, OffCourse}
    then Err(PlanningCleanupRecoveryNotExpected) else
    match RoleOf(s)
    case Some(role) =>
      var rec :- LocalEffect(r.roles.Get(role), s, at);
      var next := WithRole(r, role, rec);
      Ok(if s.CompleteCleanup? then next.(phase := AdvancedPhase(next, role)) else next)
    case None => Ok(r)
  }

  function BlamingMutation(r: Run, s: Step, at: int): Result<Run> {
    match RoleOf(s)
    case Some(role) =>
      var rec :- LocalEffect(r.roles.Get(role), s, at);
      Ok(Blame(WithRole(r, role, rec), BlamedCondition(s), BlameReason(s)))
    case None => Ok(r)
  }

  function SpawnMutation(r: Run, role: Role, attemptId: string, binding: LeaseBinding, at: int): Result<Run> {
    if attemptId == "" || !Eligible(r, role) then Err(PlanningRoleIneligible) else
    var inputDigest :- RoleInputDigest(r, role);
    var rec :- SpawnRole(r.roles.Get(role), role, BindingOf(r), inputDigest, attemptId, binding, at);
    Ok(WithRole(r, role, rec).(condition := Active, blocker := ""))
  }

  function WaitMutation(r: Run, role: Role, reason: string): Result<Run> {
    if reason == "" || !Eligible(r, role) || r.condition != Active then Err(PlanningResourceWaitNotAllowed) else
    Ok(r.(condition := ResourceWait, blocker := reason))
  }

  function RetryMutation(r: Run, role: Role, x: Receipt): Result<Run> {
    if !ReceiptAllowed(r, x) || !RetryAllowed(r, role) then Err(PlanningContinueNotAllowed) else
    Ok(r.(condition := Active, blocker := "", receipts := r.receipts + [x]))
  }

  function ContinueMutation(r: Run, x: Receipt, at: int): Result<Run> {
    if !ReceiptAllowed(r, x) then Err(PlanningContinueNotAllowed) else
    var rec :- ContinueCleanupRole(r.roles.Get(x.role), x.attemptId, x.claimId, x.recoveryOutcome, at);
    Ok(WithRole(r, x.role, rec).(receipts := r.receipts + [x]))
  }

  /** The receipt a continuation leaves. */
  function ReceiptOf(s: Step, at: int): Receipt
    requires s.RetryResources? || s.ContinueCleanup?
  {
    match s
    case RetryResources(operationId, role, storeRevision, runRevision) =>
      Receipt(operationId, ResourceRetry, role, "", "", NoRecovery, storeRevision, runRevision, at)
    case ContinueCleanup(operationId, role, attemptId, claimId, outcome, storeRevision, runRevision) =>
      Receipt(operationId, CleanupOnly, role, attemptId, claimId, outcome, storeRevision, runRevision, at)
  }

  /** The changed copy of the run, before revision and time are set and the validator looks at it. */
  function Mutated(r: Run, s: Step, at: int): Result<Run> {
    if LocalStep(s) then LocalMutation(r, s, at)
    else if BlamingStep(s) then BlamingMutation(r, s, at)
    else
      match s
      case ClaimSpawn(role, attemptId, binding) => SpawnMutation(r, role, attemptId, binding, at)
      case RecordReport(role, id, report, outputDigest, envelopeFits, candidateFits) =>
        RecordReportStep(r, role, id, report, outputDigest, envelopeFits, candidateFits, at)
      case WaitForResources(role, reason) => WaitMutation(r, role, reason)
      case RetryResources(_, role, _, _) => RetryMutation(r, role, ReceiptOf(s, at))
      case ContinueCleanup(_, _, _, _, _, _, _) => ContinueMutation(r, ReceiptOf(s, at), at)
      case CompileCandidate => CompileStep(r, at)
      case ClaimApply(claimId, digest) => ClaimApplyStep(r, claimId, digest, at)
      case MarkApplied(claimId, digest, planRevision, planDigest) => AppliedStep(r, claimId, digest, planRevision, planDigest, at)
      case RequireApplyReconcile(claimId, error) => ReconcileApplyStep(r, claimId, error, at)
      case AbandonApply(claimId, digest, reason) => AbandonStep(r, claimId, digest, reason, at)
      case LeaveCourse(reason) => OffCourseStep(r, reason)
      case CancelRun(confirmed, reason) => CancelStep(r, confirmed, reason)
  }

  /** No step changes the identity of the run. */
  lemma MutatedIdentity(r: Run, s: Step, at: int, m: Run)
    requires Mutated(r, s, at) == Ok(m)
    ensures SameIdentity(r, m)
  {
    hide LocalEffect, AdvancedPhase, BuildCandidate, RoleInputDigest, SpawnRole, ReportRole, ContinueCleanupRole, ReceiptAllowed, Eligible,
      UnresolvedWorker, SynthesisReason, ReportBlocker;
  }

  function Stamped(next: Run, at: int): Run {
    next.(revision := next.revision + 1, updatedAt := at)
  }

  /** One accepted step: the stored run is valid, the clock does not go back, the guard passes,
      and the validator accepts the changed copy. */
  function Perform(r: Run, s: Step, at: int): (result: Result<Run>) {
    if !ValidRun(r) then Err(PlanningInvalid) else
    if r.updatedAt > at then Err(PlanningClockRegressed) else
    var next :- Mutated(r, s, at);
    if !ValidRun(Stamped(next, at)) then Err(PlanningInvalid) else
    Ok(Stamped(next, at))
  }

  // ---------------------------------------------------------------- executions

  datatype Event = Event(step: Step, at: int)

  /** The run after a sequence of accepted steps; fails when one of them is refused. */
  function Execute(r: Run, events: seq<Event>): Result<Run> {
    if events == [] then Ok(r)
    else
      var last := events[|events| - 1];
      var before :- Execute(r, events[..|events| - 1]);
      Perform(before, last.step, last.at)
  }

  /** A run created on some plan and then changed by exactly these accepted steps. */
  datatype Origin = Origin(id: string, plan: Plan, at: int)

  predicate Reaches(o: Origin, events: seq<Event>, r: Run) {
    var created := CreateRun(o.id, o.plan, o.at);
    created.Ok? && Execute(created.value, events) == Ok(r)
  }

  lemma ExecuteStep(o: Origin, events: seq<Event>, r: Run) returns (before: Run)
    requires Reaches(o, events, r) && events != []
    ensures Reaches(o, events[..|events| - 1], before)
    ensures Perform(before, events[|events| - 1].step, events[|events| - 1].at) == Ok(r)
  {
    hide Perform, CreateRun;
    before := Execute(CreateRun(o.id, o.plan, o.at).value, events[..|events| - 1]).value;
  }
}
