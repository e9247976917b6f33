/** What has to be said for each step of a Planning Run, and in which state of the work. */
module PlanningCalls {
  import opened Wrappers
  import opened DeliveryPlans
  import opened PlanningRuns
  import opened PlanningSteps
  import Refusals = PlanningRefusals

  // ---------------------------------------------------------------- steps on an attempt

  /** Names the lease and the scope its worker runs in. */
  predicate NamesLease(ref: LeaseRef, b: LeaseBinding) {
    ref.leaseId == b.leaseId && ref.scopeUnit == b.scopeUnit && ref.scopeDigest == b.scopeDigest
  }

  predicate RealPane(p: Pane) {
    p.paneId != "" && p.tmuxPaneId != "" && p.panePid >= 1 && p.paneTty != ""
  }

  /** The worker sits in the pane the lease was bound to, and runs what the lease launched in its scope. */
  predicate LeasedWorker(w: Worker, l: SpawnLease) {
    && l.state == LeaseBound && l.observed.status == ExactPane
    && (match l.observed.bound case None => false case Some(bound) => w.pane == bound.pane)
    && w.session == l.binding.session && w.commandDigest == l.binding.launchDigest
    && w.scopeUnit == l.binding.scopeUnit && w.scopeDigest == l.binding.scopeDigest
  }

  /** A stop was asked for under this claim, and has come this far. */
  predicate StopUnder(l: SpawnLease, claimId: string, sent: bool) {
    match l.stop
    case None => false
    case Some(stop) => stop.claimId == claimId && (stop.state == StopClaimed || (sent && stop.state == StopSent))
  }

  predicate CleanupIs(a: Attempt, state: CleanupState) {
    match a.cleanup
    case None => false
    case Some(c) => c.state == state
  }

  /** The cleanup may be put in doubt once more. */
  predicate Doubtable(a: Attempt) {
    match a.cleanup
    case None => false
    case Some(c) => c.state in {CleanupPending, CleanupClaimed, CleanupSent} && c.recoveryCount < 3
  }

  /** The outcome of a cleanup in doubt: the worker is gone, or, twice at most, still there and claimed anew. */
  predicate Recoverable(rec: RoleRecord, a: Attempt, outcome: RecoveryOutcome, claimId: string) {
    && rec.state == RoleReconcile && a.state == AttemptReconcile && CleanupIs(a, CleanupReconcile)
    && match a.cleanup
       case None => false
       case Some(c) =>
         match outcome
         case NoRecovery => false
         case WorkerAbsent => claimId == "" && c.recoveryCount < 3
         case ExactWorker =>
           claimId != "" && c.recoveryCount < 2 && c.claimId != claimId && forall i :: 0 <= i < |c.history| ==> c.history[i].claimId != claimId
  }

  /** The attempt a step names, and what the step has to find and to say. */
  predicate AttemptCalls(rec: RoleRecord, a: Attempt, s: Step, at: int) {
    match s
    case BindLease(_, id, ref, pane) =>
      && a.id == id && rec.state == SpawnClaimed && a.state == Spawning && a.lease.state == LeaseClaimed
      && NamesLease(ref, a.lease.binding) && RealPane(pane) && at <= a.lease.binding.bindDeadlineAt
    case RequireLeaseReconcile(_, id, ref, reason) =>
      && a.id == id && rec.state == SpawnClaimed && a.state == Spawning && a.lease.state in {LeaseClaimed, LeaseBound}
      && NamesLease(ref, a.lease.binding) && reason != "" && a.lease.binding.bindDeadlineAt <= at
    case CloseLeaseAbsent(_, id, ref, reason) =>
      && a.id == id && a.lease.state in {LeaseClaimed, LeaseBound, LeaseReconcile} && a.lease.stop.None?
      && NamesLease(ref, a.lease.binding) && reason != ""
    case ClaimStop(_, id, leaseId, claimId, confirmed) =>
      && a.id == id && a.state == AttemptReconcile && a.lease.state == LeaseReconcile && a.lease.stop.None?
      && leaseId == a.lease.binding.leaseId && claimId != "" && confirmed
    case SendStop(_, id, leaseId, claimId) =>
      a.id == id && a.lease.state == LeaseReconcile && leaseId == a.lease.binding.leaseId && StopUnder(a.lease, claimId, false)
    case CompleteStop(_, id, ref, claimId, reason) =>
      a.id == id && a.lease.state == LeaseReconcile && NamesLease(ref, a.lease.binding) && StopUnder(a.lease, claimId, true) && reason != ""
    case ClaimDispatch(_, id, leaseId, d) =>
      && a.id == id && rec.state == SpawnClaimed && a.state == Spawning && leaseId == a.lease.binding.leaseId
      && LeasedWorker(d.worker, a.lease) && RealPane(d.worker.pane) && d.worker.codexPid >= 1
    case MarkDispatched(_, id) => a.id == id && rec.state == DispatchClaimed && a.state == Dispatching
    case RequireInput(_, id, reason) => a.id == id && a.state in {Spawning, Dispatching, Submitted} && reason != ""
    case RecordCrash(_, id, reason) => a.id == id && a.state in {Spawning, Dispatching, Submitted} && reason != ""
    case RequireRoleReconcile(_, id, reason) => a.id == id && a.state in {Spawning, Dispatching, Submitted} && reason != ""
    case ClaimCleanup(_, id, claimId) => a.id == id && CleanupIs(a, CleanupPending) && claimId != ""
    case SendCleanup(_, id) => a.id == id && CleanupIs(a, CleanupClaimed)
    case CompleteCleanup(_, id) => a.id == id && CleanupIs(a, CleanupSent)
    case RequireCleanupReconcile(_, id, error) => a.id == id && Doubtable(a) && error != ""
    case RecoverCleanup(_, id, outcome, claimId) => a.id == id && Recoverable(rec, a, outcome, claimId)
    case _ => false
  }

  /** The last attempt answers for the role. */
  predicate RoleCalls(rec: RoleRecord, s: Step, at: int) {
    rec.attempts != [] && AttemptCalls(rec, rec.attempts[|rec.attempts| - 1], s, at)
  }

  lemma LeaseGuard(rec: RoleRecord, s: Step, at: int)
    requires s.BindLease? || s.RequireLeaseReconcile? || s.CloseLeaseAbsent? || s.ClaimStop? || s.SendStop? || s.CompleteStop?
    ensures LocalEffect(rec, s, at).Ok? <==> RoleCalls(rec, s, at)
  {
    hide ClosedProvisional, DispatchRole, SubmitRole, UnreportedRole, ClaimCleanupRole, SendCleanupRole, CompleteCleanupRole, ReconcileCleanupRole,
      RecoverRole;
  }

  lemma DispatchGuard(rec: RoleRecord, s: Step, at: int)
    requires s.ClaimDispatch? || s.MarkDispatched?
    ensures LocalEffect(rec, s, at).Ok? <==> RoleCalls(rec, s, at)
  {
    hide ClosedProvisional, BindRole, ReconcileLeaseRole, CloseLeaseRole, ClaimStopRole, SendStopRole, CompleteStopRole, UnreportedRole,
      ClaimCleanupRole, SendCleanupRole, CompleteCleanupRole, ReconcileCleanupRole, RecoverRole;
  }

  lemma UnreportedGuard(rec: RoleRecord, s: Step, at: int)
    requires s.RequireInput? || s.RecordCrash? || s.RequireRoleReconcile?
    ensures LocalEffect(rec, s, at).Ok? <==> RoleCalls(rec, s, at)
  {
    hide ClosedProvisional, BindRole, ReconcileLeaseRole, CloseLeaseRole, ClaimStopRole, SendStopRole, CompleteStopRole, DispatchRole, SubmitRole,
      ClaimCleanupRole, SendCleanupRole, CompleteCleanupRole, ReconcileCleanupRole, RecoverRole;
    if rec.attempts != [] {
      match rec.attempts[|rec.attempts| - 1].state {
        case Spawning | Dispatching | Submitted =>
        case Finished | Crashed | AttemptReconcile =>
      }
    }
  }

  lemma CleanupGuard(rec: RoleRecord, s: Step, at: int)
    requires s.ClaimCleanup? || s.SendCleanup? || s.CompleteCleanup?
    ensures LocalEffect(rec, s, at).Ok? <==> RoleCalls(rec, s, at)
  {
    hide ClosedProvisional, BindRole, ReconcileLeaseRole, CloseLeaseRole, ClaimStopRole, SendStopRole, CompleteStopRole, DispatchRole, SubmitRole,
      UnreportedRole, ReconcileCleanupRole, RecoverRole;
  }

  lemma DoubtGuard(rec: RoleRecord, s: Step, at: int)
    requires s.RequireCleanupReconcile? || s.RecoverCleanup?
    ensures LocalEffect(rec, s, at).Ok? <==> RoleCalls(rec, s, at)
  {
    hide ClosedProvisional, BindRole, ReconcileLeaseRole, CloseLeaseRole, ClaimStopRole, SendStopRole, CompleteStopRole, DispatchRole, SubmitRole,
      UnreportedRole, ClaimCleanupRole, SendCleanupRole, CompleteCleanupRole, Recovered;
    if rec.attempts != [] {
      match rec.attempts[|rec.attempts| - 1].cleanup {
        case None =>
        case Some(c) =>
          match c.state {
            case CleanupPending | CleanupClaimed | CleanupSent =>
            case CleanupComplete | CleanupReconcile =>
          }
      }
    }
  }

  /** Exactly when a step on the record of a role passes its guard. */
  lemma RoleGuard(rec: RoleRecord, s: Step, at: int)
    requires LocalStep(s) || BlamingStep(s)
    ensures LocalEffect(rec, s, at).Ok? <==> RoleCalls(rec, s, at)
  {
    hide LocalEffect, RoleCalls;
    if s.BindLease? || s.RequireLeaseReconcile? || s.CloseLeaseAbsent? || s.ClaimStop? || s.SendStop? || s.CompleteStop? {
      LeaseGuard(rec, s, at);
    } else if s.ClaimDispatch? || s.MarkDispatched? {
      DispatchGuard(rec, s, at);
    } else if s.RequireInput? || s.RecordCrash? || s.RequireRoleReconcile? {
      UnreportedGuard(rec, s, at);
    } else if s.ClaimCleanup? || s.SendCleanup? || s.CompleteCleanup? {
      CleanupGuard(rec, s, at);
    } else {
      DoubtGuard(rec, s, at);
    }
  }

  // ---------------------------------------------------------------- steps on the run

  /** The role has its turn, nobody has claimed it yet, and the run goes on or waits for resources. */
  predicate Waits(r: Run, role: Role) {
    && r.condition in {Active, ResourceWait} && r.roles.Get(role).state == Pending && r.roles.Get(role).attempts == []
    && match r.phase
       case PhasePo => role == PO
       case PhaseBa => role == BA
       case PhaseChallenge => role == QA || role == DEV
       case _ => false
  }

  /** One more receipt is within the limits, was asked for at the present revision, and repeats no operation. */
  predicate MayContinue(r: Run, operationId: string, kind: ContinueKind, storeRevision: int, runRevision: int) {
    && operationId != "" && storeRevision >= 0 && runRevision == r.revision && |r.receipts| < 12 && CountKind(r.receipts, kind) < 6
    && forall y :: y in r.receipts ==> y.operationId != operationId
  }

  /** No receipt for the same claim of the same attempt. */
  predicate NewIntent(r: Run, role: Role, attemptId: string, claimId: string) {
    forall y :: y in r.receipts && y.kind == CleanupOnly ==> !(y.role == role && y.attemptId == attemptId && y.claimId == claimId)
  }

  /** A cleanup to claim, a claim to keep, or a cleanup in doubt whose worker is still there to claim anew. */
  predicate Continues(rec: RoleRecord, id: string, claimId: string, outcome: RecoveryOutcome) {
    && rec.attempts != []
    && var a := rec.attempts[|rec.attempts| - 1];
       && a.id == id && claimId != ""
       && match a.cleanup
          case None => false
          case Some(c) =>
            || (c.state == CleanupPending && outcome == NoRecovery)
            || (c.state == CleanupClaimed && c.claimId == claimId && outcome == NoRecovery)
            || (c.state == CleanupReconcile && rec.state == RoleReconcile && a.state == AttemptReconcile && outcome == ExactWorker
                && c.recoveryCount < 2 && c.claimId != claimId)
  }

  /** The application was claimed under this claim, for this candidate. */
  predicate ClaimedFor(o: ApplyOutbox, claimId: string, digest: CandidateDigest) {
    o.claimId == claimId && o.candidateDigest == Some(digest)
  }

  predicate InCandidate(r: Run, planRevision: int, planDigest: Definition) {
    planRevision == r.planRevision + 1 && match r.candidate { case None => false case Some(c) => planDigest == c.previewPlanDigest }
  }

  /** The lease is made out for this very attempt on this very input, and to be bound within five minutes. */
  predicate MadeOut(r: Run, role: Role, attemptId: string, binding: LeaseBinding, at: int) {
    match RoleInputDigest(r, role)
    case Err(_) => false
    case Ok(d) =>
      && binding == ExpectedLeaseBinding(BindingOf(r), role, attemptId, d, binding.contextDigest, binding.launchDigest, binding.bindDeadlineAt)
      && at < binding.bindDeadlineAt <= at + 5 * 60 * 1000
  }

  /** Every other step, and the reports apart. */
  predicate RunCalls(r: Run, s: Step, at: int) {
    match s
    case ClaimSpawn(role, id, binding) => Waits(r, role) && id != "" && MadeOut(r, role, id, binding, at)
    case WaitForResources(role, reason) => Waits(r, role) && r.condition == Active && reason != ""
    case RetryResources(operationId, role, storeRevision, runRevision) =>
      && Waits(r, role) && (r.condition == ResourceWait || CountKind(r.receipts, ResourceRetry) == 0)
      && MayContinue(r, operationId, ResourceRetry, storeRevision, runRevision)
    case ContinueCleanup(operationId, role, id, claimId, outcome, storeRevision, runRevision) =>
      && Continues(r.roles.Get(role), id, claimId, outcome) && NewIntent(r, role, id, claimId)
      && MayContinue(r, operationId, CleanupOnly, storeRevision, runRevision)
    case CompileCandidate => r.phase == PhaseSynthesis && r.condition == Active
    case ClaimApply(claimId, digest) =>
      && r.phase == PhaseReview && r.condition == Active && r.applyOutbox.state == Held && claimId != ""
      && match r.candidate { case None => false case Some(c) => c.digest == digest && c.ready }
    case MarkApplied(claimId, digest, planRevision, planDigest) =>
      && ((r.condition == Active && r.applyOutbox.state == ApplyClaimed) || (r.condition == Reconciling && r.applyOutbox.state == ApplyReconcile))
      && claimId != "" && ClaimedFor(r.applyOutbox, claimId, digest) && InCandidate(r, planRevision, planDigest)
    case RequireApplyReconcile(claimId, error) =>
      r.condition == Active && r.applyOutbox.state == ApplyClaimed && r.applyOutbox.claimId == claimId && error != ""
    case AbandonApply(claimId, digest, reason) =>
      && r.phase == PhaseReview && r.condition == OffCourse && r.applyOutbox.state in {ApplyClaimed, ApplyReconcile}
      && ClaimedFor(r.applyOutbox, claimId, digest) && reason != ""
    case LeaveCourse(reason) => r.phase !in {PhaseApplied, PhaseClosed} && r.condition != OffCourse && reason != ""
    case CancelRun(confirmed, reason) => r.phase !in {PhaseApplied, PhaseClosed} && !UnresolvedWorker(r) && confirmed && reason != ""
    case RecordReport(_, _, _, _, _, _) => false
    case _ => false
  }

  lemma SpawnGuard(r: Run, role: Role, id: string, binding: LeaseBinding, at: int)
    ensures SpawnMutation(r, role, id, binding, at).Ok? <==> Waits(r, role) && id != "" && MadeOut(r, role, id, binding, at)
  {
    hide RoleInputDigest;
  }

  lemma HandOutGuard(r: Run, s: Step, at: int)
    requires s.ClaimSpawn? || s.WaitForResources? || s.RetryResources?
    ensures Mutated(r, s, at).Ok? <==> RunCalls(r, s, at)
  {
    hide SpawnMutation, MadeOut, CountKind, LocalMutation, BlamingMutation, RecordReportStep, ContinueMutation, CompileStep, ClaimApplyStep, AppliedStep,
      ReconcileApplyStep, AbandonStep, OffCourseStep, CancelStep;
    if s.ClaimSpawn? {
      SpawnGuard(r, s.role, s.attemptId, s.binding, at);
    }
  }

  lemma ContinueGuard(r: Run, s: Step, at: int)
    requires s.ContinueCleanup?
    ensures Mutated(r, s, at).Ok? <==> RunCalls(r, s, at)
  {
    hide CountKind, LocalMutation, BlamingMutation, RecordReportStep, SpawnMutation, WaitMutation, RetryMutation, CompileStep, ClaimApplyStep, AppliedStep,
      ReconcileApplyStep, AbandonStep, OffCourseStep, CancelStep, WithCleanup, Recovered;
  }

  lemma CompileGuard(r: Run, at: int)
    requires ValidRun(r)
    ensures CompileStep(r, at).Ok? <==> r.phase == PhaseSynthesis && r.condition == Active
  {
    hide BuildCandidate, ValidCandidate, ValidOutbox, ValidSynthesisBlocker, ValidReceipts, ValidSourcePlan, ConditionLifecycle, ValidRole, SynthesisReason;
    if r.phase == PhaseSynthesis {
      Refusals.BuildFails(r, at);
    }
  }

  lemma ApplyGuard(r: Run, s: Step, at: int)
    requires s.ClaimApply? || s.MarkApplied? || s.RequireApplyReconcile? || s.AbandonApply? || s.LeaveCourse? || s.CancelRun?
    ensures Mutated(r, s, at).Ok? <==> RunCalls(r, s, at)
  {
    hide UnresolvedWorker;
  }

  /** A report on the work that was asked for, by the attempt that is working on it, and on nothing else. */
  predicate ReportDue(r: Run, role: Role, id: string, report: Report, output: Report, envelopeFits: bool) {
    var rec := r.roles.Get(role);
    && rec.state == Dispatched && rec.attempts != [] && rec.inputDigest == Some(report.inputDigest)
    && (var a := rec.attempts[|rec.attempts| - 1]; a.id == id == report.attemptId && a.state == Submitted)
    && report.runId == r.id && report.planId == r.planId && report.planRevision == r.planRevision && report.role == role && output == report
    && (match role
        case PO => report.artifact.ArtPo?
        case BA => report.artifact.ArtBa?
        case QA => report.artifact.ArtQa?
        case DEV => report.artifact.ArtDev?)
    && (report.status == StComplete && (role == PO || role == BA) ==> envelopeFits)
  }

  lemma ReportGuard(r: Run, s: Step, at: int)
    requires s.RecordReport? && Mutated(r, s, at).Ok?
    ensures ReportDue(r, s.role, s.attemptId, s.report, s.outputDigest, s.envelopeFits)
  {
    hide TrialSynthesis, ReportBlocker, ReportSummary, FinishedAttempt, StatusOutcome, Joined, Cut, LocalMutation, BlamingMutation, WithAttempt;
  }

  /** What a step has to find and to say. */
  predicate Calls(r: Run, s: Step, at: int) {
    match RoleOf(s)
    case Some(role) =>
      if LocalStep(s) || BlamingStep(s)
      then RoleCalls(r.roles.Get(role), s, at) && (s.RecoverCleanup? ==> r.condition == Reconciling || r.condition == OffCourse)
      else if s.RecordReport? then ReportDue(r, role, s.attemptId, s.report, s.outputDigest, s.envelopeFits)
      else RunCalls(r, s, at)
    case None => RunCalls(r, s, at)
  }

  lemma RecordGuard(r: Run, s: Step, at: int)
    requires LocalStep(s) || BlamingStep(s)
    ensures Mutated(r, s, at).Ok? <==> Calls(r, s, at)
  {
    hide LocalEffect, RoleCalls, AdvancedPhase;
    RoleGuard(r.roles.Get(s.role), s, at);
  }

  /** Exactly when a step other than a report passes its guard. */
  lemma GuardPassed(r: Run, s: Step, at: int)
    requires ValidRun(r) && !s.RecordReport?
    ensures Mutated(r, s, at).Ok? <==> Calls(r, s, at)
  {
    hide Mutated, ValidRun, RunCalls, RoleCalls, ReportDue;
    if LocalStep(s) || BlamingStep(s) {
      RecordGuard(r, s, at);
    } else if s.ClaimSpawn? || s.WaitForResources? || s.RetryResources? {
      HandOutGuard(r, s, at);
    } else if s.ContinueCleanup? {
      ContinueGuard(r, s, at);
    } else if s.CompileCandidate? {
      CompileGuard(r, at);
      CompileCase(r, s, at);
    } else {
      ApplyGuard(r, s, at);
    }
  }

  lemma CompileCase(r: Run, s: Step, at: int)
    requires s.CompileCandidate?
    ensures Mutated(r, s, at) == CompileStep(r, at) && (RunCalls(r, s, at) <==> r.phase == PhaseSynthesis && r.condition == Active)
  {
    hide CompileStep;
  }

  /** An accepted step found and said what it had to, and the run is stored once more, at the time of the step. */
  lemma StepCalls(r: Run, s: Step, at: int, next: Run)
    requires Perform(r, s, at) == Ok(next)
    ensures Calls(r, s, at) && r.updatedAt <= at == next.updatedAt && next.revision == r.revision + 1
  {
    hide Mutated, ValidRun, Calls;
    if s.RecordReport? {
      ReportGuard(r, s, at);
      assert Calls(r, s, at) by { ReportCalls(r, s, at); }
    } else {
      GuardPassed(r, s, at);
    }
    MutatedIdentity(r, s, at, Mutated(r, s, at).value);
  }

  lemma ReportCalls(r: Run, s: Step, at: int)
    requires s.RecordReport?
    ensures Calls(r, s, at) <==> ReportDue(r, s.role, s.attemptId, s.report, s.outputDigest, s.envelopeFits)
  {
  }
}
