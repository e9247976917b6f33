/** What the steps of a Planning Run keep: attempts, reports and inputs are fixed once they exist. */
module PlanningHistory {
  import opened Wrappers
  import opened PlanningRuns
  import opened PlanningSteps
  import opened Bound = PlanningBound

  /** Later states never have a smaller rank: no step leads back to dispatching an attempt. */
  function Rank(s: AttemptState): nat {
    match s
    case Spawning => 0
    case Dispatching => 1
    case Submitted => 2
    case _ => 3
  }

  predicate Kept<T(==)>(old_: Option<T>, new_: Option<T>) {
    old_.Some? ==> new_ == old_
  }

  /** A stop request, once claimed, stays the same request. */
  predicate StopSince(stop: Option<StopRequest>, stop': Option<StopRequest>) {
    stop.Some? ==> stop'.Some? && stop'.value.claimId == stop.value.claimId && stop'.value.claimedAt == stop.value.claimedAt
  }

  /** The attempt is the same attempt, as far along or further. */
  predicate AttemptSince(a: Attempt, a': Attempt) {
    && a'.id == a.id && a'.inputDigest == a.inputDigest && a'.claimedAt == a.claimedAt
    && a'.lease.binding == a.lease.binding && a'.lease.claimedAt == a.lease.claimedAt && StopSince(a.lease.stop, a'.lease.stop)
    && Kept(a.lease.observed.bound, a'.lease.observed.bound)
    && Kept(a.dispatch, a'.dispatch) && Kept(a.dispatchClaimedAt, a'.dispatchClaimedAt) && Kept(a.submittedAt, a'.submittedAt)
    && Rank(a.state) <= Rank(a'.state)
  }

  /** One step of an attempt: only an attempt being dispatched can be submitted. */
  predicate AttemptKept(a: Attempt, a': Attempt) {
    AttemptSince(a, a') && (a'.submittedAt.Some? && a.submittedAt.None? ==> a.state == Dispatching)
  }

  /** Single attempts and single reports: what exists stays. */
  predicate RoleKept(rec: RoleRecord, rec': RoleRecord) {
    && Kept(rec.report, rec'.report) && Kept(rec.outputDigest, rec'.outputDigest) && Kept(rec.inputDigest, rec'.inputDigest)
    && |rec.attempts| <= |rec'.attempts| <= 1
    && (|rec.attempts| == 1 ==> AttemptKept(rec.attempts[0], rec'.attempts[0]))
  }

  predicate RolesKept(t: RoleTable, t': RoleTable) {
    RoleKept(t.po, t'.po) && RoleKept(t.ba, t'.ba) && RoleKept(t.qa, t'.qa) && RoleKept(t.dev, t'.dev)
  }

  /** What the validator guarantees about the order of an attempt's fields. */
  predicate AttemptOrdered(a: Attempt) {
    && (a.state == Spawning ==> a.dispatch.None? && a.dispatchClaimedAt.None?)
    && (a.state in {Spawning, Dispatching} ==> a.submittedAt.None?)
    && (a.state == Dispatching ==> a.dispatch.Some?)
    && (a.lease.state == LeaseClaimed ==> a.lease.observed.bound.None?)
    && (a.cleanup.Some? ==> Rank(a.state) == 3)
  }

  predicate RoleOrdered(rec: RoleRecord) {
    && |rec.attempts| <= 1
    && (|rec.attempts| == 1 ==> AttemptOrdered(rec.attempts[0]))
    && (rec.state in {Pending, Dispatched} ==> rec.report.None? && rec.outputDigest.None?)
    && (rec.state == Pending ==> rec.inputDigest.None?)
  }

  lemma AttemptFacts(a: Attempt, role: Role, b: RunBinding)
    requires ValidAttemptBinding(a, role, b) && ValidAttemptLifecycle(a)
    ensures AttemptOrdered(a)
  {
    hide ValidCleanup, ValidStop, ValidPane;
  }

  lemma RoleFacts(rec: RoleRecord, role: Role, b: RunBinding)
    requires ValidRole(rec, role, b)
    ensures RoleOrdered(rec)
  {
    hide ValidAttemptBinding, ValidAttemptLifecycle, AttemptOrdered, ReportFor;
    if |rec.attempts| == 1 {
      assert rec.attempts[0] in rec.attempts;
      AttemptFacts(rec.attempts[0], role, b);
    }
  }

  lemma BindKeeps(rec: RoleRecord, id: string, ref: LeaseRef, pane: Pane, at: int)
    requires RoleOrdered(rec) && BindRole(rec, id, ref, pane, at).Ok?
    ensures RoleKept(rec, BindRole(rec, id, ref, pane, at).value)
  {
    hide RefersTo;
  }

  /** Changing the one attempt into a later state of itself keeps the role. */
  lemma OneAttemptKept(rec: RoleRecord, state: RoleState, a: Attempt)
    requires |rec.attempts| == 1 && AttemptKept(rec.attempts[0], a)
    ensures RoleKept(rec, WithAttempt(rec.(state := state), a))
  {
  }

  lemma SingleAttempt(rec: RoleRecord)
    requires RoleOrdered(rec)
    ensures |rec.attempts| <= 1
  {
  }

  lemma ReconcileLeaseKeeps(rec: RoleRecord, id: string, ref: LeaseRef, reason: string, at: int)
    requires RoleOrdered(rec) && ReconcileLeaseRole(rec, id, ref, reason, at).Ok?
    ensures RoleKept(rec, ReconcileLeaseRole(rec, id, ref, reason, at).value)
  {
    hide RoleOrdered, RoleKept, RefersTo;
    SingleAttempt(rec);
    var rec' := ReconcileLeaseRole(rec, id, ref, reason, at).value;
    OneAttemptKept(rec, RoleReconcile, rec'.attempts[0]);
  }

  lemma ClosedProvisionalKeeps(rec: RoleRecord, lease: SpawnLease, reason: string, at: int)
    requires |rec.attempts| == 1 && lease.binding == rec.attempts[0].lease.binding && lease.claimedAt == rec.attempts[0].lease.claimedAt
    requires lease.observed == rec.attempts[0].lease.observed && StopSince(rec.attempts[0].lease.stop, lease.stop)
    ensures RoleKept(rec, ClosedProvisional(rec, rec.attempts[0], lease, reason, at))
  {
    hide RoleKept, StopSince;
    OneAttemptKept(rec, RoleFailed, ClosedProvisional(rec, rec.attempts[0], lease, reason, at).attempts[0]);
  }

  lemma CloseLeaseKeeps(rec: RoleRecord, id: string, ref: LeaseRef, reason: string, at: int)
    requires RoleOrdered(rec) && CloseLeaseRole(rec, id, ref, reason, at).Ok?
    ensures RoleKept(rec, CloseLeaseRole(rec, id, ref, reason, at).value)
  {
    hide RoleOrdered, RoleKept, ClosedProvisional, RefersTo;
    SingleAttempt(rec);
    ClosedProvisionalKeeps(rec, rec.attempts[0].lease, reason, at);
  }

  lemma ClaimStopKeeps(rec: RoleRecord, id: string, lease: LeaseToken, claim: string, confirmed: bool, at: int)
    requires RoleOrdered(rec) && ClaimStopRole(rec, id, lease, claim, confirmed, at).Ok?
    ensures RoleKept(rec, ClaimStopRole(rec, id, lease, claim, confirmed, at).value)
  {
  }

  lemma SendStopKeeps(rec: RoleRecord, id: string, lease: LeaseToken, claim: string, at: int)
    requires RoleOrdered(rec) && SendStopRole(rec, id, lease, claim, at).Ok?
    ensures RoleKept(rec, SendStopRole(rec, id, lease, claim, at).value)
  {
  }

  lemma CompleteStopKeeps(rec: RoleRecord, id: string, ref: LeaseRef, claim: string, reason: string, at: int)
    requires RoleOrdered(rec) && CompleteStopRole(rec, id, ref, claim, reason, at).Ok?
    ensures RoleKept(rec, CompleteStopRole(rec, id, ref, claim, reason, at).value)
  {
    hide RoleOrdered, RoleKept, ClosedProvisional, RefersTo;
    SingleAttempt(rec);
    var lease := rec.attempts[0].lease;
    var stop := lease.stop.value.(state := StopComplete, completedAt := Some(at), observation := ScopeAndPaneAbsent);
    ClosedProvisionalKeeps(rec, lease.(stop := Some(stop)), reason, at);
  }

  lemma DispatchKeeps(rec: RoleRecord, id: string, lease: LeaseToken, dispatch: Dispatch, at: int)
    requires RoleOrdered(rec) && DispatchRole(rec, id, lease, dispatch, at).Ok?
    ensures RoleKept(rec, DispatchRole(rec, id, lease, dispatch, at).value)
  {
  }

  lemma SubmitKeeps(rec: RoleRecord, id: string, at: int)
    requires RoleOrdered(rec) && SubmitRole(rec, id, at).Ok?
    ensures RoleKept(rec, SubmitRole(rec, id, at).value)
  {
  }

  lemma LostKeeps(rec: RoleRecord, id: string, reason: string, at: int)
    requires RoleOrdered(rec) && UnreportedRole(rec, id, NoOutcome, reason, at).Ok?
    ensures RoleKept(rec, UnreportedRole(rec, id, NoOutcome, reason, at).value)
  {
  }

  lemma InputKeeps(rec: RoleRecord, id: string, reason: string, at: int)
    requires RoleOrdered(rec) && UnreportedRole(rec, id, OutNeedsInput, reason, at).Ok?
    ensures RoleKept(rec, UnreportedRole(rec, id, OutNeedsInput, reason, at).value)
  {
  }

  lemma CrashKeeps(rec: RoleRecord, id: string, reason: string, at: int)
    requires RoleOrdered(rec) && UnreportedRole(rec, id, OutCrashed, reason, at).Ok?
    ensures RoleKept(rec, UnreportedRole(rec, id, OutCrashed, reason, at).value)
  {
  }

  lemma ClaimCleanupKeeps(rec: RoleRecord, id: string, claim: string, at: int)
    requires RoleOrdered(rec) && ClaimCleanupRole(rec, id, claim, at).Ok?
    ensures RoleKept(rec, ClaimCleanupRole(rec, id, claim, at).value)
  {
  }

  lemma SendCleanupKeeps(rec: RoleRecord, id: string, at: int)
    requires RoleOrdered(rec) && SendCleanupRole(rec, id, at).Ok?
    ensures RoleKept(rec, SendCleanupRole(rec, id, at).value)
  {
  }

  lemma CompleteCleanupKeeps(rec: RoleRecord, id: string, at: int)
    requires RoleOrdered(rec) && CompleteCleanupRole(rec, id, at).Ok?
    ensures RoleKept(rec, CompleteCleanupRole(rec, id, at).value)
  {
  }

  lemma ReconcileCleanupKeeps(rec: RoleRecord, id: string, error: string)
    requires RoleOrdered(rec) && ReconcileCleanupRole(rec, id, error).Ok?
    ensures RoleKept(rec, ReconcileCleanupRole(rec, id, error).value)
  {
  }

  lemma RecoverKeeps(rec: RoleRecord, id: string, outcome: RecoveryOutcome, claim: string, at: int)
    requires RoleOrdered(rec) && RecoverRole(rec, id, outcome, claim, at).Ok?
    ensures RoleKept(rec, RecoverRole(rec, id, outcome, claim, at).value)
  {
  }

  lemma ContinueKeeps(rec: RoleRecord, id: string, claim: string, outcome: RecoveryOutcome, at: int)
    requires RoleOrdered(rec) && ContinueCleanupRole(rec, id, claim, outcome, at).Ok?
    ensures RoleKept(rec, ContinueCleanupRole(rec, id, claim, outcome, at).value)
  {
  }

  lemma ReportKeeps(rec: RoleRecord, role: Role, b: RunBinding, id: string, report: Report, output: Report, at: int)
    requires RoleOrdered(rec) && ReportRole(rec, role, b, id, report, output, at).Ok?
    ensures RoleKept(rec, ReportRole(rec, role, b, id, report, output, at).value)
  {
  }

  lemma SpawnKeeps(rec: RoleRecord, role: Role, b: RunBinding, d: InputDigest, id: string, binding: LeaseBinding, at: int)
    requires RoleOrdered(rec) && rec.state == Pending && rec.attempts == [] && SpawnRole(rec, role, b, d, id, binding, at).Ok?
    ensures var rec' := SpawnRole(rec, role, b, d, id, binding, at).value;
            RoleKept(rec, rec') && rec'.inputDigest == Some(d) && rec'.attempts != [] && rec'.attempts[0].state == Spawning
  {
    hide ValidLease;
  }

  lemma LocalKeeps(rec: RoleRecord, s: Step, at: int)
    requires LocalStep(s) || BlamingStep(s)
    requires RoleOrdered(rec) && LocalEffect(rec, s, at).Ok?
    ensures RoleKept(rec, LocalEffect(rec, s, at).value)
  {
    hide RoleOrdered, RoleKept;
    hide BindRole, ClaimStopRole, SendStopRole, DispatchRole, SubmitRole, ClaimCleanupRole, SendCleanupRole, CompleteCleanupRole,
      RecoverRole, ReconcileLeaseRole, CloseLeaseRole, CompleteStopRole, UnreportedRole, ReconcileCleanupRole;
    match s {
      case BindLease(_, id, ref, pane) => BindKeeps(rec, id, ref, pane, at);
      case ClaimStop(_, id, lease, claim, confirmed) => ClaimStopKeeps(rec, id, lease, claim, confirmed, at);
      case SendStop(_, id, lease, claim) => SendStopKeeps(rec, id, lease, claim, at);
      case ClaimDispatch(_, id, lease, dispatch) => DispatchKeeps(rec, id, lease, dispatch, at);
      case MarkDispatched(_, id) => SubmitKeeps(rec, id, at);
      case ClaimCleanup(_, id, claim) => ClaimCleanupKeeps(rec, id, claim, at);
      case SendCleanup(_, id) => SendCleanupKeeps(rec, id, at);
      case CompleteCleanup(_, id) => CompleteCleanupKeeps(rec, id, at);
      case RecoverCleanup(_, id, outcome, claim) => RecoverKeeps(rec, id, outcome, claim, at);
      case RequireLeaseReconcile(_, id, ref, reason) => ReconcileLeaseKeeps(rec, id, ref, reason, at);
      case CloseLeaseAbsent(_, id, ref, reason) => CloseLeaseKeeps(rec, id, ref, reason, at);
      case CompleteStop(_, id, ref, claim, reason) => CompleteStopKeeps(rec, id, ref, claim, reason, at);
      case RequireInput(_, id, reason) => InputKeeps(rec, id, reason, at);
      case RecordCrash(_, id, reason) => CrashKeeps(rec, id, reason, at);
      case RequireRoleReconcile(_, id, reason) => LostKeeps(rec, id, reason, at);
      case RequireCleanupReconcile(_, id, error) => ReconcileCleanupKeeps(rec, id, error);
    }
  }

  // ---------------------------------------------------------------- one step

  lemma SameKept(rec: RoleRecord)
    requires RoleOrdered(rec)
    ensures RoleKept(rec, rec)
  {
  }

  /** One role record moved on and the others stayed. */
  lemma TableKept(t: RoleTable, role: Role, rec: RoleRecord)
    requires RoleOrdered(t.po) && RoleOrdered(t.ba) && RoleOrdered(t.qa) && RoleOrdered(t.dev)
    requires RoleKept(t.Get(role), rec)
    ensures RolesKept(t, t.With(role, rec))
  {
    hide RoleOrdered, RoleKept;
    SameKept(t.po);
    SameKept(t.ba);
    SameKept(t.qa);
    SameKept(t.dev);
  }

  predicate Ordered(r: Run) {
    RoleOrdered(r.roles.po) && RoleOrdered(r.roles.ba) && RoleOrdered(r.roles.qa) && RoleOrdered(r.roles.dev)
  }

  lemma ValidRunOrdered(r: Run)
    requires ValidRun(r)
    ensures Ordered(r)
  {
    hide ValidSourcePlan, ValidCandidate, ValidOutbox, ValidSynthesisBlocker, ValidReceipts, PhaseLifecycle, ConditionLifecycle, ValidRole,
      RoleOrdered;
    RoleFacts(r.roles.po, PO, BindingOf(r));
    RoleFacts(r.roles.ba, BA, BindingOf(r));
    RoleFacts(r.roles.qa, QA, BindingOf(r));
    RoleFacts(r.roles.dev, DEV, BindingOf(r));
  }

  /** Once claimed, a role's stored input is the one recomputed from the plan and the upstream reports. */
  predicate InputFrozen(r: Run, role: Role) {
    r.roles.Get(role).attempts != [] ==>
      r.roles.Get(role).inputDigest.Some? && RoleInputDigest(r, role) == Ok(r.roles.Get(role).inputDigest.value)
  }

  predicate InputsFrozen(r: Run) {
    InputFrozen(r, PO) && InputFrozen(r, BA) && InputFrozen(r, QA) && InputFrozen(r, DEV)
  }

  /** A new attempt starts out spawning, on the input the run determines for its role. */
  predicate FreshAttempt(r: Run, role: Role, rec: RoleRecord) {
    && rec.attempts != [] && rec.attempts[0].state == Spawning
    && rec.inputDigest.Some? && RoleInputDigest(r, role) == Ok(rec.inputDigest.value)
  }

  predicate NewInputsFrozen(r: Run, next: Run) {
    forall role :: r.roles.Get(role).attempts == [] && next.roles.Get(role).attempts != [] ==>
      FreshAttempt(r, role, next.roles.Get(role))
  }

  /** An applied run took exactly the previewed revision and definition; no other run claims to be applied.
      Only a candidate ready for approval is ever being applied. */
  predicate AppliedExactly(r: Run) {
    && (r.applyOutbox.state != Held ==> r.candidate.Some? && r.candidate.value.ready)
    && (r.applyOutbox.state != ApplyApplied ==>
          r.applyOutbox.appliedPlanRevision.None? && r.applyOutbox.appliedPlanDigest.None? && r.applyOutbox.appliedAt.None?)
    && (r.applyOutbox.state == ApplyApplied ==>
          && r.phase == PhaseApplied && r.candidate.Some?
          && r.applyOutbox.appliedPlanRevision == Some(r.planRevision + 1)
          && r.applyOutbox.appliedPlanDigest == Some(r.candidate.value.previewPlanDigest))
  }

  /** What a step keeps of the run. */
  predicate StepKeeps(r: Run, next: Run) {
    && SameIdentity(r, next)
    && RolesKept(r.roles, next.roles) && NewInputsFrozen(r, next)
    && (r.condition == OffCourse ==> next.condition == OffCourse || (next.condition == RunCanceled && next.phase == PhaseClosed))
    && (AppliedExactly(r) ==> AppliedExactly(next))
    && (r.candidate.Some? ==> next.candidate == r.candidate)
  }

  /** A step that replaces one claimed role record. */
  lemma RoleStepKeeps(r: Run, role: Role, rec: RoleRecord, next: Run)
    requires Ordered(r) && SameIdentity(r, next) && next.roles == r.roles.With(role, rec) && RoleKept(r.roles.Get(role), rec)
    requires r.roles.Get(role).attempts == [] ==> FreshAttempt(r, role, rec)
    requires r.condition == OffCourse ==> next.condition == OffCourse
    requires next.candidate == r.candidate && next.applyOutbox == r.applyOutbox
    requires next.phase != r.phase ==> r.applyOutbox.state != ApplyApplied
    ensures StepKeeps(r, next)
  {
    hide RoleOrdered, RoleKept, RoleInputDigest;
    GetWith(r.roles, role, rec);
    TableKept(r.roles, role, rec);
  }

  lemma LocalStepKeeps(r: Run, s: Step, at: int, next: Run)
    requires LocalStep(s) && LocalMutation(r, s, at) == Ok(next)
    requires Ordered(r) && PhaseLifecycle(r)
    ensures StepKeeps(r, next)
  {
    hide RoleOrdered, RoleKept, RoleInputDigest, LocalEffect, StepKeeps, CompletedAndCleaned;
    var rec, rec' := r.roles.Get(s.role), LocalEffect(r.roles.Get(s.role), s, at).value;
    if rec.attempts == [] {
      NoAttemptNoEffect(rec, s, at);
    }
    LocalKeeps(rec, s, at);
    RoleStepKeeps(r, s.role, rec', next);
  }

  lemma BlamingStepKeeps(r: Run, s: Step, at: int, next: Run)
    requires BlamingStep(s) && BlamingMutation(r, s, at) == Ok(next)
    requires Ordered(r)
    ensures StepKeeps(r, next)
  {
    hide RoleOrdered, RoleKept, RoleInputDigest, LocalEffect, StepKeeps;
    var rec, rec' := r.roles.Get(s.role), LocalEffect(r.roles.Get(s.role), s, at).value;
    if rec.attempts == [] {
      NoAttemptNoEffect(rec, s, at);
    }
    LocalKeeps(rec, s, at);
    RoleStepKeeps(r, s.role, rec', next);
  }

  lemma SpawnStepKeeps(r: Run, role: Role, attemptId: string, binding: LeaseBinding, at: int, next: Run)
    requires SpawnMutation(r, role, attemptId, binding, at) == Ok(next) && Ordered(r)
    ensures StepKeeps(r, next)
  {
    hide RoleOrdered, RoleKept, RoleInputDigest, SpawnRole, StepKeeps;
    var rec, b, d := r.roles.Get(role), BindingOf(r), RoleInputDigest(r, role).value;
    SpawnKeeps(rec, role, b, d, attemptId, binding, at);
    RoleStepKeeps(r, role, SpawnRole(rec, role, b, d, attemptId, binding, at).value, next);
  }

  lemma ReportStepKeeps(r: Run, role: Role, id: string, report: Report, output: Report, envelopeFits: bool, candidateFits: bool, at: int,
                        next: Run)
    requires RecordReportStep(r, role, id, report, output, envelopeFits, candidateFits, at) == Ok(next) && Ordered(r)
    ensures StepKeeps(r, next)
  {
    hide RoleOrdered, RoleKept, RoleInputDigest, ReportRole, StepKeeps, BuildCandidate;
    var rec, b := r.roles.Get(role), BindingOf(r);
    if rec.attempts == [] {
      ReportNeedsAttempt(rec, role, b, id, report, output, at);
    }
    ReportKeeps(rec, role, b, id, report, output, at);
    RoleStepKeeps(r, role, ReportRole(rec, role, b, id, report, output, at).value, next);
  }

  lemma ContinueStepKeeps(r: Run, x: Receipt, at: int, next: Run)
    requires ContinueMutation(r, x, at) == Ok(next) && Ordered(r)
    ensures StepKeeps(r, next)
  {
    hide RoleOrdered, RoleKept, RoleInputDigest, ContinueCleanupRole, StepKeeps, ReceiptAllowed;
    var rec := r.roles.Get(x.role);
    ContinueNeedsAttempt(rec, x.attemptId, x.claimId, x.recoveryOutcome, at);
    ContinueKeeps(rec, x.attemptId, x.claimId, x.recoveryOutcome, at);
    RoleStepKeeps(r, x.role, ContinueCleanupRole(rec, x.attemptId, x.claimId, x.recoveryOutcome, at).value, next);
  }

  /** Steps that leave all role records alone. */
  predicate OtherStep(s: Step) {
    !LocalStep(s) && !BlamingStep(s) && !s.ClaimSpawn? && !s.RecordReport? && !s.ContinueCleanup?
  }

  lemma OtherStepMoves(r: Run, s: Step, at: int, next: Run)
    requires OtherStep(s) && Mutated(r, s, at) == Ok(next) && PhaseLifecycle(r)
    ensures next.roles == r.roles && (r.candidate.Some? ==> next.candidate == r.candidate)
    ensures r.condition == OffCourse ==> next.condition == OffCourse || (next.condition == RunCanceled && next.phase == PhaseClosed)
  {
    hide RoleInputDigest, BuildCandidate, CompletedAndCleaned, ReceiptAllowed, CountKind, UnresolvedWorker;
    hide LocalMutation, BlamingMutation, SpawnMutation, RecordReportStep, ContinueMutation;
  }

  lemma OtherStepApplies(r: Run, s: Step, at: int, next: Run)
    requires OtherStep(s) && Mutated(r, s, at) == Ok(next) && PhaseLifecycle(r) && AppliedExactly(r)
    ensures AppliedExactly(next)
  {
    hide RoleInputDigest, BuildCandidate, CompletedAndCleaned, ReceiptAllowed, CountKind, UnresolvedWorker;
    hide LocalMutation, BlamingMutation, SpawnMutation, RecordReportStep, ContinueMutation;
  }

  lemma OtherStepKeeps(r: Run, s: Step, at: int, next: Run)
    requires OtherStep(s) && Mutated(r, s, at) == Ok(next) && Ordered(r) && PhaseLifecycle(r)
    ensures StepKeeps(r, next)
  {
    hide RoleOrdered, RoleKept, Mutated, AppliedExactly, PhaseLifecycle, OtherStep;
    MutatedIdentity(r, s, at, next);
    OtherStepMoves(r, s, at, next);
    if AppliedExactly(r) {
      OtherStepApplies(r, s, at, next);
    }
    SameKept(r.roles.po);
    SameKept(r.roles.ba);
    SameKept(r.roles.qa);
    SameKept(r.roles.dev);
  }

  lemma MutatedKeeps(r: Run, s: Step, at: int, next: Run)
    requires Mutated(r, s, at) == Ok(next) && Ordered(r) && PhaseLifecycle(r)
    ensures StepKeeps(r, next)
  {
    hide StepKeeps, Ordered, PhaseLifecycle, Blame, Eligible;
    hide LocalMutation, BlamingMutation, SpawnMutation, RecordReportStep, WaitMutation, RetryMutation, ContinueMutation,
      CompileStep, ClaimApplyStep, AppliedStep, ReconcileApplyStep, AbandonStep, OffCourseStep, CancelStep;
    match s {
      case ClaimSpawn(role, attemptId, binding) => SpawnStepKeeps(r, role, attemptId, binding, at, next);
      case RecordReport(role, id, report, output, envelopeFits, candidateFits) =>
        ReportStepKeeps(r, role, id, report, output, envelopeFits, candidateFits, at, next);
      case ContinueCleanup(_, _, _, _, _, _, _) => ContinueStepKeeps(r, ReceiptOf(s, at), at, next);
      case _ =>
        if LocalStep(s) {
          LocalStepKeeps(r, s, at, next);
        } else if BlamingStep(s) {
          BlamingStepKeeps(r, s, at, next);
        } else {
          OtherStepKeeps(r, s, at, next);
        }
    }
  }

  lemma PerformKeeps(r: Run, s: Step, at: int, next: Run)
    requires Perform(r, s, at) == Ok(next)
    ensures Ordered(r) && Ordered(next) && StepKeeps(r, next.(revision := r.revision))
  {
    hide ValidRun, Mutated, Ordered, StepKeeps, RoleOrdered, PhaseLifecycle;
    ValidRunOrdered(r);
    ValidRunOrdered(next);
    assert PhaseLifecycle(r) by { ValidPhase(r); }
    var m := Mutated(r, s, at).value;
    MutatedKeeps(r, s, at, m);
    assert next == Stamped(m, at);
    StampKeeps(r, m, at);
  }

  lemma ValidPhase(r: Run)
    requires ValidRun(r)
    ensures PhaseLifecycle(r)
  {
    hide ValidSourcePlan, ValidRoles, ValidCandidate, ValidOutbox, ValidSynthesisBlocker, ValidReceipts, PhaseLifecycle, ConditionLifecycle;
  }

  lemma StampKeeps(r: Run, m: Run, at: int)
    requires StepKeeps(r, m)
    ensures StepKeeps(r, Stamped(m, at).(revision := r.revision))
  {
    hide RoleKept, RoleInputDigest;
  }
}
