/** How long a Planning Run can get: a potential that every accepted step uses up. */
module PlanningLength {
  import opened Wrappers
  import opened PlanningRuns
  import opened PlanningSteps

  // ---------------------------------------------------------------- reachable role records

  /** Cleanup of a worker that was never in doubt. */
  predicate Cleaning(a: Attempt) {
    a.cleanup.Some? && a.cleanup.value.recoveryCount == 0 && a.cleanup.value.state != CleanupReconcile
  }

  /** Cleanup of a worker whose state had to be reconciled. */
  predicate Recovering(a: Attempt) {
    && a.cleanup.Some?
    && var c := a.cleanup.value;
    && c.state != CleanupPending
    && (c.state == CleanupReconcile ==> 0 <= c.recoveryCount <= 2)
    && (c.state in {CleanupClaimed, CleanupSent} ==> 1 <= c.recoveryCount <= 2)
  }

  predicate Adopted(a: Attempt) {
    a.lease.state == LeaseAdopted && a.dispatch.Some?
  }

  predicate Provisional(a: Attempt) {
    a.dispatch.None? && a.cleanup.None?
  }

  /** The shapes an attempt takes in each role state; the validator alone admits more. */
  predicate AttemptShape(s: RoleState, a: Attempt) {
    match s
    case Pending => false
    case SpawnClaimed => a.state == Spawning && a.lease.state in {LeaseClaimed, LeaseBound} && Provisional(a) && a.lease.stop.None?
    case DispatchClaimed => a.state == Dispatching && Adopted(a) && a.cleanup.None?
    case Dispatched => a.state == Submitted && Adopted(a) && a.cleanup.None?
    case Completed => a.state == Finished && Adopted(a) && Cleaning(a)
    case RoleNeedsInput => a.state == Finished && Adopted(a) && Cleaning(a)
    case RoleFailed =>
      || (a.state in {Finished, Crashed} && Adopted(a) && Cleaning(a))
      || (a.state == Crashed && a.lease.state == LeaseClosed && Provisional(a))
    case RoleReconcile =>
      a.state == AttemptReconcile &&
      (|| (Adopted(a) && Recovering(a))
       || (a.lease.state == LeaseReconcile && Provisional(a)
           && (a.lease.stop.Some? ==> a.lease.stop.value.state in {StopClaimed, StopSent})))
  }

  predicate RoleShape(rec: RoleRecord) {
    if rec.attempts == [] then rec.state == Pending
    else |rec.attempts| == 1 && AttemptShape(rec.state, rec.attempts[0])
  }

  predicate RoleShapes(t: RoleTable) {
    RoleShape(t.po) && RoleShape(t.ba) && RoleShape(t.qa) && RoleShape(t.dev)
  }

  // ---------------------------------------------------------------- steps a role has left

  function CleanupRest(c: Cleanup): int {
    match c.state
    case CleanupPending => 10
    case CleanupClaimed => 9 - 3 * c.recoveryCount
    case CleanupSent => 8 - 3 * c.recoveryCount
    case CleanupReconcile => 7 - 3 * c.recoveryCount
    case CleanupComplete => 0
  }

  function LeaseRest(l: SpawnLease): int {
    match l.state
    case LeaseClaimed => 14
    case LeaseBound => 13
    case LeaseReconcile => if l.stop.None? then 3 else if l.stop.value.state == StopClaimed then 2 else 1
    case _ => 0
  }

  /** The most steps the role can still take on its own. */
  function Rest(rec: RoleRecord): int {
    if rec.attempts == [] then 15
    else
      var a := rec.attempts[0];
      if a.cleanup.Some? then CleanupRest(a.cleanup.value)
      else if a.state == Dispatching then 12
      else if a.state == Submitted then 11
      else LeaseRest(a.lease)
  }

  /** The role can still finish the way that lets the phase advance. */
  predicate OnCourse(rec: RoleRecord) {
    rec.state in {Pending, SpawnClaimed, DispatchClaimed, Dispatched, Completed}
  }

  /** Steps left on the way that lets the phase advance. */
  function CourseRest(rec: RoleRecord): int {
    if rec.attempts == [] then 8
    else
      var a := rec.attempts[0];
      if a.cleanup.Some? then
        match a.cleanup.value.state
        case CleanupPending => 3
        case CleanupClaimed => 2
        case CleanupSent => 1
        case _ => 0
      else if a.state == Dispatching then 5
      else if a.state == Submitted then 4
      else if a.lease.state == LeaseBound then 6
      else 7
  }

  /** One step of a role: one further on course, or off course for good; either way less is left. */
  predicate RoleProgress(old_: RoleRecord, new_: RoleRecord) {
    && Rest(new_) < Rest(old_)
    && (OnCourse(new_) ==> OnCourse(old_) && CourseRest(new_) < CourseRest(old_))
    && (OnCourse(old_) && !OnCourse(new_) ==> Rest(new_) < 15)
  }

  /** The part of the attempt rules that ties an ended attempt without a worker to its lease. */
  predicate WorkerAccounted(rec: RoleRecord) {
    forall a :: a in rec.attempts && a.dispatch.None? ==>
      && (a.state == Finished ==> a.lease.state == LeaseAdopted)
      && (a.state == Crashed ==> a.lease.state == LeaseClosed)
      && (a.state == AttemptReconcile ==> a.lease.state == LeaseReconcile)
  }

  predicate ValidCleanups(rec: RoleRecord) {
    forall a :: a in rec.attempts && a.cleanup.Some? ==> 0 <= a.cleanup.value.recoveryCount <= MAX_CLEANUP_RECOVERIES
  }

  lemma BindProgress(rec: RoleRecord, id: string, ref: LeaseRef, pane: Pane, at: int)
    requires RoleShape(rec) && BindRole(rec, id, ref, pane, at).Ok?
    ensures RoleShape(BindRole(rec, id, ref, pane, at).value) && RoleProgress(rec, BindRole(rec, id, ref, pane, at).value)
  {
  }

  /** An unfinished attempt without an adopted worker. */
  lemma ProvisionalShape(rec: RoleRecord)
    requires RoleShape(rec) && rec.attempts != [] && rec.attempts[0].lease.state in {LeaseClaimed, LeaseBound, LeaseReconcile}
    ensures |rec.attempts| == 1 && Provisional(rec.attempts[0]) && rec.state in {SpawnClaimed, RoleReconcile}
    ensures rec.attempts[0].state in {Spawning, AttemptReconcile} && Rest(rec) > 0
    ensures rec.state == SpawnClaimed ==> rec.attempts[0].lease.stop.None?
  {
  }

  lemma ReconcileLeaseProgress(rec: RoleRecord, id: string, ref: LeaseRef, reason: string, at: int)
    requires RoleShape(rec) && ReconcileLeaseRole(rec, id, ref, reason, at).Ok?
    ensures RoleShape(ReconcileLeaseRole(rec, id, ref, reason, at).value) && RoleProgress(rec, ReconcileLeaseRole(rec, id, ref, reason, at).value)
  {
    hide RoleShape, RefersTo;
    assert |rec.attempts| <= 1 by { SingleAttempt(rec); }
    ProvisionalShape(rec);
    DoubtfulShape(ReconcileLeaseRole(rec, id, ref, reason, at).value);
  }

  lemma DoubtfulShape(rec: RoleRecord)
    requires |rec.attempts| == 1 && rec.state == RoleReconcile && rec.attempts[0].state == AttemptReconcile
    requires rec.attempts[0].lease.state == LeaseReconcile && Provisional(rec.attempts[0]) && rec.attempts[0].lease.stop.None?
    ensures RoleShape(rec)
  {
  }

  lemma ClosedProvisionalProgress(rec: RoleRecord, lease: SpawnLease, reason: string, at: int)
    requires |rec.attempts| == 1 && Rest(rec) > 0 && rec.state in {SpawnClaimed, RoleReconcile} && Provisional(rec.attempts[0])
    ensures var rec' := ClosedProvisional(rec, rec.attempts[0], lease, reason, at); RoleShape(rec') && RoleProgress(rec, rec')
  {
  }

  lemma CloseLeaseProgress(rec: RoleRecord, id: string, ref: LeaseRef, reason: string, at: int)
    requires RoleShape(rec) && CloseLeaseRole(rec, id, ref, reason, at).Ok?
    ensures RoleShape(CloseLeaseRole(rec, id, ref, reason, at).value) && RoleProgress(rec, CloseLeaseRole(rec, id, ref, reason, at).value)
  {
    hide RoleShape, RoleProgress, Rest, ClosedProvisional, RefersTo;
    assert |rec.attempts| <= 1 by { SingleAttempt(rec); }
    ProvisionalShape(rec);
    ClosedProvisionalProgress(rec, rec.attempts[0].lease, reason, at);
  }

  lemma SingleAttempt(rec: RoleRecord)
    requires RoleShape(rec)
    ensures |rec.attempts| <= 1
  {
  }

  lemma ClaimStopProgress(rec: RoleRecord, id: string, lease: LeaseToken, claim: string, confirmed: bool, at: int)
    requires RoleShape(rec) && ClaimStopRole(rec, id, lease, claim, confirmed, at).Ok?
    ensures RoleShape(ClaimStopRole(rec, id, lease, claim, confirmed, at).value) && RoleProgress(rec, ClaimStopRole(rec, id, lease, claim, confirmed, at).value)
  {
  }

  lemma SendStopProgress(rec: RoleRecord, id: string, lease: LeaseToken, claim: string, at: int)
    requires RoleShape(rec) && SendStopRole(rec, id, lease, claim, at).Ok?
    ensures RoleShape(SendStopRole(rec, id, lease, claim, at).value) && RoleProgress(rec, SendStopRole(rec, id, lease, claim, at).value)
  {
  }

  lemma CompleteStopProgress(rec: RoleRecord, id: string, ref: LeaseRef, claim: string, reason: string, at: int)
    requires RoleShape(rec) && CompleteStopRole(rec, id, ref, claim, reason, at).Ok?
    ensures RoleShape(CompleteStopRole(rec, id, ref, claim, reason, at).value) && RoleProgress(rec, CompleteStopRole(rec, id, ref, claim, reason, at).value)
  {
    hide RoleShape, RoleProgress, Rest, ClosedProvisional, RefersTo;
    assert |rec.attempts| <= 1 by { SingleAttempt(rec); }
    ProvisionalShape(rec);
    var lease := rec.attempts[0].lease;
    var stop := lease.stop.value.(state := StopComplete, completedAt := Some(at), observation := ScopeAndPaneAbsent);
    ClosedProvisionalProgress(rec, lease.(stop := Some(stop)), reason, at);
  }

  lemma DispatchProgress(rec: RoleRecord, id: string, lease: LeaseToken, dispatch: Dispatch, at: int)
    requires RoleShape(rec) && DispatchRole(rec, id, lease, dispatch, at).Ok?
    ensures RoleShape(DispatchRole(rec, id, lease, dispatch, at).value) && RoleProgress(rec, DispatchRole(rec, id, lease, dispatch, at).value)
  {
  }

  lemma SubmitProgress(rec: RoleRecord, id: string, at: int)
    requires RoleShape(rec) && SubmitRole(rec, id, at).Ok?
    ensures RoleShape(SubmitRole(rec, id, at).value) && RoleProgress(rec, SubmitRole(rec, id, at).value)
  {
  }

  // A provisional worker cannot be reported lost this way: the validator refuses the result.
  lemma LostProgress(rec: RoleRecord, id: string, reason: string, at: int)
    requires RoleShape(rec) && UnreportedRole(rec, id, NoOutcome, reason, at).Ok?
    requires WorkerAccounted(UnreportedRole(rec, id, NoOutcome, reason, at).value)
    ensures RoleShape(UnreportedRole(rec, id, NoOutcome, reason, at).value) && RoleProgress(rec, UnreportedRole(rec, id, NoOutcome, reason, at).value)
  {
  }

  lemma InputProgress(rec: RoleRecord, id: string, reason: string, at: int)
    requires RoleShape(rec) && UnreportedRole(rec, id, OutNeedsInput, reason, at).Ok?
    requires WorkerAccounted(UnreportedRole(rec, id, OutNeedsInput, reason, at).value)
    ensures RoleShape(UnreportedRole(rec, id, OutNeedsInput, reason, at).value) && RoleProgress(rec, UnreportedRole(rec, id, OutNeedsInput, reason, at).value)
  {
  }

  lemma CrashProgress(rec: RoleRecord, id: string, reason: string, at: int)
    requires RoleShape(rec) && UnreportedRole(rec, id, OutCrashed, reason, at).Ok?
    requires WorkerAccounted(UnreportedRole(rec, id, OutCrashed, reason, at).value)
    ensures RoleShape(UnreportedRole(rec, id, OutCrashed, reason, at).value) && RoleProgress(rec, UnreportedRole(rec, id, OutCrashed, reason, at).value)
  {
  }

  lemma ClaimCleanupProgress(rec: RoleRecord, id: string, claim: string, at: int)
    requires RoleShape(rec) && ClaimCleanupRole(rec, id, claim, at).Ok?
    requires ValidCleanups(rec)
    ensures RoleShape(ClaimCleanupRole(rec, id, claim, at).value) && RoleProgress(rec, ClaimCleanupRole(rec, id, claim, at).value)
  {
  }

  lemma SendCleanupProgress(rec: RoleRecord, id: string, at: int)
    requires RoleShape(rec) && SendCleanupRole(rec, id, at).Ok?
    requires ValidCleanups(rec)
    ensures RoleShape(SendCleanupRole(rec, id, at).value) && RoleProgress(rec, SendCleanupRole(rec, id, at).value)
  {
  }

  lemma CompleteCleanupProgress(rec: RoleRecord, id: string, at: int)
    requires RoleShape(rec) && CompleteCleanupRole(rec, id, at).Ok?
    requires ValidCleanups(rec)
    ensures RoleShape(CompleteCleanupRole(rec, id, at).value) && RoleProgress(rec, CompleteCleanupRole(rec, id, at).value)
  {
  }

  lemma ReconcileCleanupProgress(rec: RoleRecord, id: string, error: string)
    requires RoleShape(rec) && ReconcileCleanupRole(rec, id, error).Ok?
    requires ValidCleanups(rec)
    ensures RoleShape(ReconcileCleanupRole(rec, id, error).value) && RoleProgress(rec, ReconcileCleanupRole(rec, id, error).value)
  {
  }

  lemma RecoverProgress(rec: RoleRecord, id: string, outcome: RecoveryOutcome, claim: string, at: int)
    requires RoleShape(rec) && RecoverRole(rec, id, outcome, claim, at).Ok?
    requires ValidCleanups(rec)
    ensures RoleShape(RecoverRole(rec, id, outcome, claim, at).value) && RoleProgress(rec, RecoverRole(rec, id, outcome, claim, at).value)
  {
  }

  lemma LocalProgress(rec: RoleRecord, s: Step, at: int)
    requires LocalStep(s) || BlamingStep(s)
    requires RoleShape(rec) && ValidCleanups(rec)
    requires LocalEffect(rec, s, at).Ok? && WorkerAccounted(LocalEffect(rec, s, at).value)
    ensures RoleShape(LocalEffect(rec, s, at).value) && RoleProgress(rec, LocalEffect(rec, s, at).value)
  {
    hide RoleShape, RoleProgress, WorkerAccounted, ValidCleanups;
    hide BindRole, ClaimStopRole, SendStopRole, DispatchRole, SubmitRole, ClaimCleanupRole, SendCleanupRole, CompleteCleanupRole,
      RecoverRole, ReconcileLeaseRole, CloseLeaseRole, CompleteStopRole, UnreportedRole, ReconcileCleanupRole;
    match s {
      case BindLease(_, id, ref, pane) => BindProgress(rec, id, ref, pane, at);
      case ClaimStop(_, id, lease, claim, confirmed) => ClaimStopProgress(rec, id, lease, claim, confirmed, at);
      case SendStop(_, id, lease, claim) => SendStopProgress(rec, id, lease, claim, at);
      case ClaimDispatch(_, id, lease, dispatch) => DispatchProgress(rec, id, lease, dispatch, at);
      case MarkDispatched(_, id) => SubmitProgress(rec, id, at);
      case ClaimCleanup(_, id, claim) => ClaimCleanupProgress(rec, id, claim, at);
      case SendCleanup(_, id) => SendCleanupProgress(rec, id, at);
      case CompleteCleanup(_, id) => CompleteCleanupProgress(rec, id, at);
      case RecoverCleanup(_, id, outcome, claim) => RecoverProgress(rec, id, outcome, claim, at);
      case RequireLeaseReconcile(_, id, ref, reason) => ReconcileLeaseProgress(rec, id, ref, reason, at);
      case CloseLeaseAbsent(_, id, ref, reason) => CloseLeaseProgress(rec, id, ref, reason, at);
      case CompleteStop(_, id, ref, claim, reason) => CompleteStopProgress(rec, id, ref, claim, reason, at);
      case RequireInput(_, id, reason) => InputProgress(rec, id, reason, at);
      case RecordCrash(_, id, reason) => CrashProgress(rec, id, reason, at);
      case RequireRoleReconcile(_, id, reason) => LostProgress(rec, id, reason, at);
      case RequireCleanupReconcile(_, id, error) => ReconcileCleanupProgress(rec, id, error);
    }
  }

  lemma SpawnProgress(rec: RoleRecord, role: Role, b: RunBinding, d: InputDigest, attemptId: string, binding: LeaseBinding, at: int)
    requires rec.attempts == [] && rec.state == Pending && SpawnRole(rec, role, b, d, attemptId, binding, at).Ok?
    ensures var rec' := SpawnRole(rec, role, b, d, attemptId, binding, at).value;
            RoleShape(rec') && RoleProgress(rec, rec')
  {
    hide ValidLease;
  }

  lemma ReportProgress(rec: RoleRecord, role: Role, b: RunBinding, attemptId: string, report: Report, output: Report, at: int)
    requires RoleShape(rec) && ReportRole(rec, role, b, attemptId, report, output, at).Ok?
    ensures var rec' := ReportRole(rec, role, b, attemptId, report, output, at).value;
            RoleShape(rec') && RoleProgress(rec, rec')
  {
  }

  lemma ContinueProgress(rec: RoleRecord, attemptId: string, claimId: string, outcome: RecoveryOutcome, at: int)
    requires RoleShape(rec) && ContinueCleanupRole(rec, attemptId, claimId, outcome, at).Ok?
    ensures var rec' := ContinueCleanupRole(rec, attemptId, claimId, outcome, at).value;
            rec' == rec || (RoleShape(rec') && RoleProgress(rec, rec'))
  {
  }

  // ---------------------------------------------------------------- steps a run has left

  function PendingCount(t: RoleTable): int {
    (if t.po.attempts == [] then 1 else 0) + (if t.ba.attempts == [] then 1 else 0)
    + (if t.qa.attempts == [] then 1 else 0) + (if t.dev.attempts == [] then 1 else 0)
  }

  // A role that leaves its course keeps the phase from advancing, so the later roles drop out.
  function RolesRest(r: Run): int {
    match r.phase
    case PhasePo => if OnCourse(r.roles.po) then CourseRest(r.roles.po) + 38 else Rest(r.roles.po)
    case PhaseBa => if OnCourse(r.roles.ba) then CourseRest(r.roles.ba) + 30 else Rest(r.roles.ba)
    case PhaseChallenge => Rest(r.roles.qa) + Rest(r.roles.dev)
    case _ => 0
  }

  // Every wait but an open one was ended by a retry or a spawn.
  function ResourceRest(r: Run): int {
    if !Alive(r.condition) then 0
    else 2 * (MAX_RECEIPTS_PER_KIND - CountKind(r.receipts, ResourceRetry)) + PendingCount(r.roles)
         - (if r.condition == ResourceWait then 1 else 0)
  }

  function ReceiptRest(r: Run): int {
    MAX_RECEIPTS_PER_KIND - CountKind(r.receipts, CleanupOnly)
  }

  function ApplyRest(r: Run): int {
    match r.phase
    case PhaseSynthesis => if r.condition == Active then 4 else 0
    case PhaseReview =>
      (match r.applyOutbox.state
       case Held => 3
       case ApplyClaimed => 2
       case ApplyReconcile => 1
       case _ => 0)
    case _ => 0
  }

  /** The most steps a run can still take. */
  function Potential(r: Run): int {
    if Terminal(r) then 0
    else RolesRest(r) + ResourceRest(r) + ReceiptRest(r) + ApplyRest(r) + (if r.condition == OffCourse then 0 else 1) + 1
  }

  /** While the run waits for resources, some role of its phase is waiting to be spawned. */
  predicate WaitsForRole(r: Run) {
    r.condition == ResourceWait ==>
      || (r.phase == PhasePo && r.roles.po.attempts == [])
      || (r.phase == PhaseBa && r.roles.ba.attempts == [])
      || (r.phase == PhaseChallenge && (r.roles.qa.attempts == [] || r.roles.dev.attempts == []))
  }

  predicate Settled(rec: RoleRecord) {
    rec.attempts != [] ==> Rest(rec) == 0
  }

  predicate ClosedSettled(r: Run) {
    r.phase == PhaseClosed ==> Settled(r.roles.po) && Settled(r.roles.ba) && Settled(r.roles.qa) && Settled(r.roles.dev)
  }

  /** What holds of every reachable run, beside validity. */
  predicate Shaped(r: Run) {
    RoleShapes(r.roles) && WaitsForRole(r) && ClosedSettled(r)
  }

  predicate RoleBounded(rec: RoleRecord) {
    ValidCleanups(rec) && WorkerAccounted(rec)
  }

  /** The facts about valid runs that the potential needs. */
  predicate Bounded(r: Run) {
    && RoleBounded(r.roles.po) && RoleBounded(r.roles.ba) && RoleBounded(r.roles.qa) && RoleBounded(r.roles.dev)
    && CountKind(r.receipts, ResourceRetry) <= MAX_RECEIPTS_PER_KIND
    && CountKind(r.receipts, CleanupOnly) <= MAX_RECEIPTS_PER_KIND
    && PhaseLifecycle(r)
  }

  lemma RoleFacts(rec: RoleRecord, role: Role, b: RunBinding)
    requires ValidRole(rec, role, b)
    ensures RoleBounded(rec)
  {
    hide ValidLease;
  }

  lemma ValidRunBounded(r: Run)
    requires ValidRun(r)
    ensures Bounded(r)
  {
    hide ValidSourcePlan, ValidCandidate, ValidOutbox, ValidSynthesisBlocker, PhaseLifecycle, ConditionLifecycle, ValidRole, RoleBounded;
    RoleFacts(r.roles.po, PO, BindingOf(r));
    RoleFacts(r.roles.ba, BA, BindingOf(r));
    RoleFacts(r.roles.qa, QA, BindingOf(r));
    RoleFacts(r.roles.dev, DEV, BindingOf(r));
  }

  lemma RestNonNegative(rec: RoleRecord)
    requires RoleShape(rec) && RoleBounded(rec)
    ensures 0 <= Rest(rec) <= 15 && 0 <= CourseRest(rec) <= 8
    ensures CompletedAndCleaned(rec) ==> Rest(rec) == 0 && CourseRest(rec) == 0
    ensures rec.attempts == [] ==> OnCourse(rec)
  {
  }

  lemma PotentialNonNegative(r: Run)
    requires Shaped(r) && Bounded(r)
    ensures Potential(r) >= 0
    ensures !Terminal(r) ==> RolesRest(r) >= 0 && ResourceRest(r) >= 0 && ReceiptRest(r) >= 0 && ApplyRest(r) >= 0 && Potential(r) >= 1
  {
    hide RoleShape, RoleBounded, PhaseLifecycle, Rest, CourseRest, OnCourse;
    RestNonNegative(r.roles.po);
    RestNonNegative(r.roles.ba);
    RestNonNegative(r.roles.qa);
    RestNonNegative(r.roles.dev);
  }

  /** Progress of the role uses up the potential of the roles of the phase. */
  lemma RoleChange(r: Run, role: Role, next: Run)
    requires Shaped(r) && Bounded(r) && next.roles == r.roles.With(role, next.roles.Get(role)) && next.phase == r.phase
    requires RoleShape(next.roles.Get(role)) && RoleBounded(next.roles.Get(role))
    requires RoleProgress(r.roles.Get(role), next.roles.Get(role))
    requires r.roles.Get(role).attempts != [] || role in PhaseRoles(r.phase)
    ensures !Terminal(r) && RolesRest(next) < RolesRest(r) && RoleShapes(next.roles) && role in PhaseRoles(r.phase)
  {
    hide RoleShape, RoleBounded, Rest, CourseRest, OnCourse, CompletedAndCleaned;
    RestNonNegative(r.roles.po);
    RestNonNegative(r.roles.ba);
    RestNonNegative(r.roles.qa);
    RestNonNegative(r.roles.dev);
    RestNonNegative(next.roles.Get(role));
    PendingShape(r.roles.ba);
    PendingShape(r.roles.qa);
    PendingShape(r.roles.dev);
  }

  lemma PendingShape(rec: RoleRecord)
    requires RoleShape(rec)
    ensures rec.state == Pending <==> rec.attempts == []
  {
  }
}
