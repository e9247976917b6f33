/** Every accepted step uses up potential, so a Planning Run takes at most 71 steps, create included. */
module PlanningBound {
  import opened Wrappers
  import opened DeliveryPlans
  import opened PlanningRuns
  import opened PlanningSteps
  import opened PlanningLength
  import Phases = DeliveryPlanPhases

  /** What a step of some class must establish about the stored result. */
  predicate Used(r: Run, next: Run) {
    !Terminal(r) && Shaped(next) && Potential(next) < Potential(r)
  }

  /** Only one role record changed, and not the phase. */
  predicate OnlyRole(r: Run, role: Role, next: Run) {
    next.roles == r.roles.With(role, next.roles.Get(role)) && next.phase == r.phase && next.applyOutbox.state == r.applyOutbox.state
  }

  lemma GetWith(t: RoleTable, role: Role, rec: RoleRecord)
    ensures t.With(role, rec).Get(role) == rec
    ensures forall other :: other != role ==> t.With(role, rec).Get(other) == t.Get(other)
  {
  }

  /** Role progress pays for any change of condition that does not revive the run, and for
      handing out the role itself. */
  lemma RoleProgressUses(r: Run, role: Role, next: Run)
    requires Shaped(r) && Bounded(r) && Bounded(next) && OnlyRole(r, role, next)
    requires RoleShape(next.roles.Get(role)) && RoleProgress(r.roles.Get(role), next.roles.Get(role))
    requires next.roles.Get(role).attempts != []
    requires CountKind(next.receipts, CleanupOnly) >= CountKind(r.receipts, CleanupOnly)
    requires CountKind(next.receipts, ResourceRetry) == CountKind(r.receipts, ResourceRetry)
    requires if r.roles.Get(role).attempts == [] then role in PhaseRoles(r.phase) && Alive(r.condition) && next.condition == Active
             else next.condition == r.condition || !Alive(next.condition)
    requires r.condition == OffCourse ==> next.condition == OffCourse
    ensures Used(r, next)
  {
    hide RoleShape, RoleBounded, RoleProgress, Rest, CourseRest, OnCourse, CompletedAndCleaned, PhaseLifecycle;
    RoleChange(r, role, next);
    PotentialNonNegative(r);
    assert PendingCount(next.roles) == PendingCount(r.roles) - (if r.roles.Get(role).attempts == [] then 1 else 0);
    assert ResourceRest(next) <= ResourceRest(r);
    assert ApplyRest(next) <= ApplyRest(r);
  }

  lemma LocalUses(r: Run, s: Step, at: int, next: Run)
    requires LocalStep(s) && LocalMutation(r, s, at) == Ok(next)
    requires Shaped(r) && Bounded(r) && Bounded(next)
    ensures Used(r, next)
  {
    hide RoleShape, RoleBounded, RoleProgress, Rest, CourseRest, OnCourse, CompletedAndCleaned, PhaseLifecycle, LocalEffect, Used, Bounded, Shaped;
    var rec := r.roles.Get(s.role);
    var rec' := LocalEffect(rec, s, at).value;
    LocalRecordProgress(r, s, s.role, at, next, rec');
    if next.phase == r.phase {
      RoleProgressUses(r, s.role, next);
    } else {
      CompleteCleanupEffect(rec, s, at);
      AdvanceUses(r, s.role, s.attemptId, at, next);
    }
  }

  lemma BlamingUses(r: Run, s: Step, at: int, next: Run)
    requires BlamingStep(s) && BlamingMutation(r, s, at) == Ok(next)
    requires Shaped(r) && Bounded(r) && Bounded(next)
    ensures Used(r, next)
  {
    hide RoleShape, RoleBounded, RoleProgress, Rest, CourseRest, OnCourse, CompletedAndCleaned, PhaseLifecycle, LocalEffect, Used, Bounded, Shaped;
    var rec' := LocalEffect(r.roles.Get(s.role), s, at).value;
    LocalRecordProgress(r, s, s.role, at, next, rec');
    RoleProgressUses(r, s.role, next);
  }

  lemma LocalRecordProgress(r: Run, s: Step, role: Role, at: int, next: Run, rec': RoleRecord)
    requires (LocalStep(s) || BlamingStep(s)) && RoleOf(s) == Some(role)
    requires LocalEffect(r.roles.Get(role), s, at) == Ok(rec') && next.roles == r.roles.With(role, rec')
    requires Shaped(r) && Bounded(r) && Bounded(next)
    ensures next.roles.Get(role) == rec' && rec'.attempts != [] && r.roles.Get(role).attempts != []
    ensures RoleShape(rec') && RoleProgress(r.roles.Get(role), rec')
  {
    hide RoleShape, RoleProgress, LocalEffect, PhaseLifecycle;
    GetWith(r.roles, role, rec');
    BoundedGet(r, role);
    BoundedGet(next, role);
    LocalProgress(r.roles.Get(role), s, at);
    if r.roles.Get(role).attempts == [] {
      NoAttemptNoEffect(r.roles.Get(role), s, at);
    }
    ProgressHasAttempt(r.roles.Get(role), rec');
  }

  lemma ProgressHasAttempt(rec: RoleRecord, rec': RoleRecord)
    requires RoleShape(rec) && RoleBounded(rec) && RoleProgress(rec, rec')
    ensures rec'.attempts != []
  {
    hide RoleShape;
    RestNonNegative(rec);
  }

  lemma CompleteCleanupEffect(rec: RoleRecord, s: Step, at: int)
    requires s.CompleteCleanup?
    ensures LocalEffect(rec, s, at) == CompleteCleanupRole(rec, s.attemptId, at)
  {
    hide CompleteCleanupRole;
  }

  lemma BoundedGet(r: Run, role: Role)
    requires Bounded(r)
    ensures RoleBounded(r.roles.Get(role))
  {
    hide PhaseLifecycle;
  }

  lemma NoAttemptNoEffect(rec: RoleRecord, s: Step, at: int)
    requires LocalStep(s) || BlamingStep(s)
    requires rec.attempts == []
    ensures LocalEffect(rec, s, at).Err?
  {
  }

  /** The last cleanup of a phase pays for what the next phase may still do. */
  lemma AdvanceUses(r: Run, role: Role, id: string, at: int, next: Run)
    requires Shaped(r) && Bounded(r) && Bounded(next)
    requires CompleteCleanupRole(r.roles.Get(role), id, at).Ok?
    requires var m := WithRole(r, role, CompleteCleanupRole(r.roles.Get(role), id, at).value);
             next == m.(phase := AdvancedPhase(m, role)) && next.phase != r.phase
    ensures Used(r, next)
  {
    hide RoleShape, RoleBounded, Rest, CourseRest, OnCourse, CompletedAndCleaned, CompleteCleanupRole;
    var rec := r.roles.Get(role);
    CompleteCleanupRest(rec, id, at);
    GetWith(r.roles, role, CompleteCleanupRole(rec, id, at).value);
    CompletedState(next.roles.Get(role));
    PendingRests(next.roles.ba);
    PendingRests(next.roles.qa);
    PendingRests(next.roles.dev);
    assert PendingCount(next.roles) == PendingCount(r.roles);
    assert RolesRest(next) + ApplyRest(next) < RolesRest(r) by {
      RestNonNegative(r.roles.qa);
      RestNonNegative(r.roles.dev);
    }
    PotentialNonNegative(r);
  }

  lemma PendingRests(rec: RoleRecord)
    requires RoleShape(rec)
    ensures rec.state == Pending <==> rec.attempts == []
    ensures rec.state == Pending ==> OnCourse(rec) && Rest(rec) == 15 && CourseRest(rec) == 8
  {
  }

  lemma CompletedState(rec: RoleRecord)
    ensures CompletedAndCleaned(rec) ==> rec.state == Completed
  {
  }

  lemma CompleteCleanupRest(rec: RoleRecord, id: string, at: int)
    requires RoleShape(rec) && CompleteCleanupRole(rec, id, at).Ok?
    ensures var rec' := CompleteCleanupRole(rec, id, at).value;
            && RoleShape(rec') && rec.attempts != [] && rec'.attempts != [] && rec'.state == rec.state
            && (rec.state == Completed ==> OnCourse(rec) && Rest(rec) == 8 && CourseRest(rec) == 1)
  {
  }

  lemma SpawnUses(r: Run, role: Role, attemptId: string, binding: LeaseBinding, at: int, next: Run)
    requires SpawnMutation(r, role, attemptId, binding, at) == Ok(next)
    requires Shaped(r) && Bounded(r) && Bounded(next)
    ensures Used(r, next)
  {
    hide RoleShape, RoleBounded, RoleProgress, Rest, CourseRest, OnCourse, CompletedAndCleaned, PhaseLifecycle, SpawnRole, Used, Bounded,
      Shaped, RoleInputDigest;
    var rec, b, d := r.roles.Get(role), BindingOf(r), RoleInputDigest(r, role).value;
    SpawnProgress(rec, role, b, d, attemptId, binding, at);
    var rec' := SpawnRole(rec, role, b, d, attemptId, binding, at).value;
    GetWith(r.roles, role, rec');
    SpawnAddsAttempt(rec, role, b, d, attemptId, binding, at);
    RoleProgressUses(r, role, next);
  }

  lemma SpawnAddsAttempt(rec: RoleRecord, role: Role, b: RunBinding, d: InputDigest, attemptId: string, binding: LeaseBinding, at: int)
    requires SpawnRole(rec, role, b, d, attemptId, binding, at).Ok?
    ensures SpawnRole(rec, role, b, d, attemptId, binding, at).value.attempts != []
  {
    hide ValidLease;
  }

  lemma ReportUses(r: Run, role: Role, id: string, report: Report, output: Report, envelopeFits: bool, candidateFits: bool, at: int,
                   next: Run)
    requires RecordReportStep(r, role, id, report, output, envelopeFits, candidateFits, at) == Ok(next)
    requires Shaped(r) && Bounded(r) && Bounded(next)
    ensures Used(r, next)
  {
    hide RoleShape, RoleBounded, RoleProgress, Rest, CourseRest, OnCourse, CompletedAndCleaned, PhaseLifecycle, ReportRole, BuildCandidate,
      Used, Bounded;
    var rec, b := r.roles.Get(role), BindingOf(r);
    BoundedGet(r, role);
    ReportProgress(rec, role, b, id, report, output, at);
    var rec' := ReportRole(rec, role, b, id, report, output, at).value;
    GetWith(r.roles, role, rec');
    ReportNeedsAttempt(rec, role, b, id, report, output, at);
    RoleProgressUses(r, role, next);
  }

  lemma ReportNeedsAttempt(rec: RoleRecord, role: Role, b: RunBinding, attemptId: string, report: Report, output: Report, at: int)
    requires ReportRole(rec, role, b, attemptId, report, output, at).Ok?
    ensures rec.attempts != [] && ReportRole(rec, role, b, attemptId, report, output, at).value.attempts != []
  {
  }

  lemma CountPush(receipts: seq<Receipt>, x: Receipt, kind: ContinueKind)
    ensures CountKind(receipts + [x], kind) == CountKind(receipts, kind) + (if x.kind == kind then 1 else 0)
  {
    assert (receipts + [x])[..|receipts|] == receipts;
  }

  lemma ContinueUses(r: Run, x: Receipt, at: int, next: Run)
    requires x.kind == CleanupOnly && ContinueMutation(r, x, at) == Ok(next)
    requires Shaped(r) && Bounded(r) && Bounded(next)
    ensures Used(r, next)
  {
    hide RoleShape, RoleBounded, RoleProgress, Rest, CourseRest, OnCourse, CompletedAndCleaned, PhaseLifecycle, ContinueCleanupRole, CountKind;
    var rec := r.roles.Get(x.role);
    CountPush(r.receipts, x, CleanupOnly);
    CountPush(r.receipts, x, ResourceRetry);
    ContinueProgress(rec, x.attemptId, x.claimId, x.recoveryOutcome, at);
    var rec' := ContinueCleanupRole(rec, x.attemptId, x.claimId, x.recoveryOutcome, at).value;
    GetWith(r.roles, x.role, rec');
    ContinueNeedsAttempt(rec, x.attemptId, x.claimId, x.recoveryOutcome, at);
    if rec' == rec {
      assert next.roles == r.roles;
      PotentialNonNegative(r);
      ClosedNoCleanup(r, x.role);
    } else {
      RoleProgressUses(r, x.role, next);
    }
  }

  lemma ContinueNeedsAttempt(rec: RoleRecord, id: string, claimId: string, outcome: RecoveryOutcome, at: int)
    requires ContinueCleanupRole(rec, id, claimId, outcome, at).Ok?
    ensures var rec' := ContinueCleanupRole(rec, id, claimId, outcome, at).value;
            rec.attempts != [] && rec'.attempts != [] && OpenCleanup(rec)
  {
  }

  /** A cleanup that has not been completed. */
  predicate OpenCleanup(rec: RoleRecord) {
    rec.attempts != [] && var a := rec.attempts[|rec.attempts| - 1]; a.cleanup.Some? && a.cleanup.value.state != CleanupComplete
  }

  lemma OpenCleanupRest(rec: RoleRecord)
    requires RoleShape(rec) && OpenCleanup(rec)
    ensures Rest(rec) > 0 && !CompletedAndCleaned(rec)
  {
  }

  lemma ClosedNoCleanup(r: Run, role: Role)
    requires Shaped(r) && Bounded(r) && OpenCleanup(r.roles.Get(role))
    ensures !Terminal(r)
  {
    hide RoleShape, RoleBounded, Rest, CourseRest, OnCourse, CompletedAndCleaned;
    OpenCleanupRest(r.roles.Get(role));
  }

  lemma WaitUses(r: Run, role: Role, reason: string, next: Run)
    requires WaitMutation(r, role, reason) == Ok(next)
    requires Shaped(r) && Bounded(r) && Bounded(next)
    ensures Used(r, next)
  {
    hide RoleShape, RoleBounded, Rest, CourseRest, OnCourse, CompletedAndCleaned, PhaseLifecycle, CountKind;
  }

  lemma RetryUses(r: Run, role: Role, x: Receipt, next: Run)
    requires x.kind == ResourceRetry && RetryMutation(r, role, x) == Ok(next)
    requires Shaped(r) && Bounded(r) && Bounded(next)
    ensures Used(r, next)
  {
    hide RoleShape, RoleBounded, Rest, CourseRest, OnCourse, CompletedAndCleaned, PhaseLifecycle, CountKind;
    CountPush(r.receipts, x, ResourceRetry);
    CountPush(r.receipts, x, CleanupOnly);
  }

  /** A step of synthesis or apply: roles and receipts stay, and less of the apply path is left. */
  lemma ApplyRestUses(r: Run, next: Run)
    requires Shaped(r) && Bounded(r) && Bounded(next) && !Terminal(r)
    requires next.roles == r.roles && next.receipts == r.receipts && next.condition != ResourceWait
    requires next.phase == PhaseApplied || next.phase in {PhaseSynthesis, PhaseReview}
    requires r.phase in {PhaseSynthesis, PhaseReview}
    requires next.phase != PhaseApplied ==> ApplyRest(next) < ApplyRest(r) && (next.condition == r.condition || !Alive(next.condition))
    requires next.phase != PhaseApplied && r.condition == OffCourse ==> next.condition == OffCourse
    ensures Used(r, next)
  {
    hide RoleShape, RoleBounded, Rest, CourseRest, OnCourse, CompletedAndCleaned, PhaseLifecycle, CountKind;
    PotentialNonNegative(r);
  }

  lemma CompileUses(r: Run, at: int, next: Run)
    requires CompileStep(r, at) == Ok(next)
    requires Shaped(r) && Bounded(r) && Bounded(next)
    ensures Used(r, next)
  {
    hide RoleShapes, RoleBounded, CompletedAndCleaned, CountKind, BuildCandidate, ClosedSettled, Used, Bounded;
    ApplyRestUses(r, next);
  }

  lemma ClaimApplyUses(r: Run, claimId: string, digest: CandidateDigest, at: int, next: Run)
    requires ClaimApplyStep(r, claimId, digest, at) == Ok(next)
    requires Shaped(r) && Bounded(r) && Bounded(next)
    ensures Used(r, next)
  {
    hide RoleShapes, RoleBounded, CompletedAndCleaned, CountKind, BuildCandidate, ClosedSettled, Used;
    ApplyRestUses(r, next);
  }

  lemma AppliedUses(r: Run, claimId: string, digest: CandidateDigest, revision: int, plan: Definition, at: int, next: Run)
    requires AppliedStep(r, claimId, digest, revision, plan, at) == Ok(next)
    requires Shaped(r) && Bounded(r) && Bounded(next)
    ensures Used(r, next)
  {
    hide RoleShapes, RoleBounded, CompletedAndCleaned, CountKind, BuildCandidate, ClosedSettled, Used;
    ApplyRestUses(r, next);
  }

  lemma ReconcileApplyUses(r: Run, claimId: string, error: string, at: int, next: Run)
    requires ReconcileApplyStep(r, claimId, error, at) == Ok(next)
    requires Shaped(r) && Bounded(r) && Bounded(next)
    ensures Used(r, next)
  {
    hide RoleShapes, RoleBounded, CompletedAndCleaned, CountKind, BuildCandidate, ClosedSettled, Used;
    ApplyRestUses(r, next);
  }

  lemma AbandonUses(r: Run, claimId: string, digest: CandidateDigest, reason: string, at: int, next: Run)
    requires AbandonStep(r, claimId, digest, reason, at) == Ok(next)
    requires Shaped(r) && Bounded(r) && Bounded(next)
    ensures Used(r, next)
  {
    hide RoleShapes, RoleBounded, CompletedAndCleaned, CountKind, BuildCandidate, ClosedSettled, Used, Bounded;
    ApplyRestUses(r, next);
  }

  lemma OffCourseUses(r: Run, reason: string, next: Run)
    requires OffCourseStep(r, reason) == Ok(next)
    requires Shaped(r) && Bounded(r) && Bounded(next)
    ensures Used(r, next)
  {
    hide RoleShape, RoleBounded, Rest, CourseRest, OnCourse, CompletedAndCleaned, PhaseLifecycle, CountKind;
    PotentialNonNegative(r);
  }

  lemma CancelUses(r: Run, confirmed: bool, reason: string, next: Run)
    requires CancelStep(r, confirmed, reason) == Ok(next)
    requires Shaped(r) && Bounded(r) && Bounded(next)
    ensures Used(r, next)
  {
    hide RoleShape, RoleBounded, Rest, CourseRest, OnCourse, CompletedAndCleaned, PhaseLifecycle, CountKind, UnresolvedRole;
    PotentialNonNegative(r);
    ResolvedSettled(r.roles.po);
    ResolvedSettled(r.roles.ba);
    ResolvedSettled(r.roles.qa);
    ResolvedSettled(r.roles.dev);
  }

  lemma ResolvedSettled(rec: RoleRecord)
    requires RoleShape(rec)
    ensures !UnresolvedRole(rec) <==> Settled(rec)
  {
  }

  lemma MutatedUses(r: Run, s: Step, at: int, next: Run)
    requires Mutated(r, s, at) == Ok(next)
    requires Shaped(r) && Bounded(r) && Bounded(next)
    ensures Used(r, next)
  {
    hide Used, Shaped, Bounded, Blame, Eligible;
    hide LocalMutation, BlamingMutation, SpawnMutation, RecordReportStep, WaitMutation, RetryMutation, ContinueMutation,
      CompileStep, ClaimApplyStep, AppliedStep, ReconcileApplyStep, AbandonStep, OffCourseStep, CancelStep;
    match s {
      case ClaimSpawn(role, attemptId, binding) => SpawnUses(r, role, attemptId, binding, at, next);
      case RecordReport(role, id, report, output, envelopeFits, candidateFits) =>
        ReportUses(r, role, id, report, output, envelopeFits, candidateFits, at, next);
      case WaitForResources(role, reason) => WaitUses(r, role, reason, next);
      case RetryResources(_, role, _, _) => RetryUses(r, role, ReceiptOf(s, at), next);
      case ContinueCleanup(_, _, _, _, _, _, _) => ContinueUses(r, ReceiptOf(s, at), at, next);
      case CompileCandidate => CompileUses(r, at, next);
      case ClaimApply(claimId, digest) => ClaimApplyUses(r, claimId, digest, at, next);
      case MarkApplied(claimId, digest, revision, plan) => AppliedUses(r, claimId, digest, revision, plan, at, next);
      case RequireApplyReconcile(claimId, error) => ReconcileApplyUses(r, claimId, error, at, next);
      case AbandonApply(claimId, digest, reason) => AbandonUses(r, claimId, digest, reason, at, next);
      case LeaveCourse(reason) => OffCourseUses(r, reason, next);
      case CancelRun(confirmed, reason) => CancelUses(r, confirmed, reason, next);
      case _ =>
        if LocalStep(s) {
          LocalUses(r, s, at, next);
        } else {
          BlamingUses(r, s, at, next);
        }
    }
  }

  // ---------------------------------------------------------------- whole executions

  const LONGEST_RUN := 71
  const OPERATION_FOOTPRINT := 37 + 24 + 12 + 4

  lemma PerformUses(r: Run, s: Step, at: int, next: Run)
    requires Shaped(r) && Perform(r, s, at) == Ok(next)
    ensures Used(r, next) && ValidRun(next) && next.revision == r.revision + 1
    ensures next.updatedAt == at && r.updatedAt <= at
  {
    hide ValidRun, Mutated, Shaped, Bounded, Potential, Used;
    var m := Mutated(r, s, at).value;
    MutatedIdentity(r, s, at, m);
    ValidRunBounded(r);
    ValidRunBounded(next);
    StampIrrelevant(m, at);
    MutatedUses(r, s, at, m);
    StampUsed(r, m, at);
  }

  lemma StampIrrelevant(m: Run, at: int)
    ensures Bounded(Stamped(m, at)) <==> Bounded(m)
  {
    hide RoleBounded, CompletedAndCleaned, CountKind;
  }

  lemma StampUsed(r: Run, m: Run, at: int)
    ensures Used(r, Stamped(m, at)) <==> Used(r, m)
  {
    hide RoleShape, Rest, CourseRest, OnCourse, CountKind;
  }

  /** Every run any order of accepted steps can produce has taken at most 71 steps, create
      included; so the 77 operations the store reserves for it always suffice. */
  lemma {:induction false} RunLength(o: Origin, events: seq<Event>, r: Run)
    requires Reaches(o, events, r)
    ensures ValidRun(r) && Shaped(r)
    ensures r.revision == 1 + |events|
    ensures r.revision + Potential(r) <= LONGEST_RUN && Potential(r) >= 0
    ensures r.revision <= LONGEST_RUN <= OPERATION_FOOTPRINT
    decreases |events|
  {
    hide Perform, ValidRun, Shaped, Bounded, RolesRest;
    if events == [] {
      CreatedPotential(o, r);
    } else {
      hide ValidRun, Shaped, Potential, Perform, Reaches;
      var before := ExecuteStep(o, events, r);
      RunLength(o, events[..|events| - 1], before);
      PerformUses(before, events[|events| - 1].step, events[|events| - 1].at, r);
      ValidRunBounded(r);
      PotentialNonNegative(r);
    }
  }

  /** A change or a build of standard depth, locally reversible, that may write the workspace and nothing else, of a
      captured baseline. */
  predicate Plannable(d: Definition) {
    && d.classification.depth == "standard" && (d.classification.intent == "change" || d.classification.intent == "build")
    && d.classification.risk == "local_reversible"
    && |d.classification.mutationSurfaces| == 1 && d.classification.mutationSurfaces[0] == "workspace"
    && d.authority.workspaceWrite && !d.authority.commit && !d.authority.push && !d.authority.deploy && !d.authority.network
    && !d.authority.serviceControl && !d.authority.destructive && !d.authority.externalMessages
    && d.baseline.head != "" && d.baseline.workingTree != Missing && d.baseline.instructions != Missing
  }

  lemma CreateChecked(o: Origin)
    ensures CreateRun(o.id, o.plan, o.at).Ok? <==> o.id != "" && ValidSourcePlan(o.plan)
  {
    hide ValidSourcePlan, ValidCandidate, ValidAttemptBinding;
  }

  /** A run is created exactly on a valid plan in planning that may be planned this way. */
  lemma CreateAccepted(o: Origin)
    ensures CreateRun(o.id, o.plan, o.at).Ok? <==> o.id != "" && ValidSourcePlan(o.plan)
    ensures ValidSourcePlan(o.plan) <==> Phases.ValidPlan(o.plan) && o.plan.phase == Planning && o.plan.capturedAt.Some? && Plannable(o.plan.def)
  {
    hide CreateRun, ValidSourcePlan, Plannable, Phases.ValidPlan;
    CreateChecked(o);
    SourcePlan(o.plan);
  }

  lemma SourcePlan(p: Plan)
    ensures ValidSourcePlan(p) <==> Phases.ValidPlan(p) && p.phase == Planning && p.capturedAt.Some? && Plannable(p.def)
  {
    hide Phases.ValidPlan;
  }

  /** A text of n characters. */
  function Wide(c: char, n: nat): (s: string)
    ensures |s| == n
  {
    seq(n, _ => c)
  }

  const HEX := Wide('0', 64)

  const EMPTY_PO := PoArtifact("", "", "", "", [], [], [])
  const EMPTY_BA := BaArtifact([], [], [], [], [])
  const EMPTY_DEV := DevArtifact("", [], [], "", [])
  const EMPTY_QA := QaArtifact([], "", [], false, [], [])

  /** A plan on which a run can be created. */
  function PlanOn(request: string): Plan {
    Plan(Definition("plan-00000001", "title", request, "/workspace", Baseline("0000000", Recorded(HEX), Recorded(HEX)),
                    Classification("change", "standard", "local_reversible", [], ["workspace"]),
                    Roles(EMPTY_PO, EMPTY_BA, EMPTY_DEV, EMPTY_QA), [], Authority(true, false, false, false, false, false, false, false)),
         Some(0), 1, Planning, NO_APPROVAL, NO_GATES, "", 0, 0)
  }

  /** Such plans exist, so runs do. */
  lemma PlannablePlan(request: string)
    ensures ValidSourcePlan(PlanOn(request))
  {
    hide ReadyPlan;
    assert ["workspace"] == ["workspace"];
  }

  lemma CreatedPotential(o: Origin, r: Run)
    requires CreateRun(o.id, o.plan, o.at) == Ok(r)
    ensures ValidRun(r) && Shaped(r) && Potential(r) == 70 && r.revision == 1
  {
    hide ValidSourcePlan, ValidCandidate, ValidRun;
  }

  /** An applied or closed run accepts no further step. */
  lemma TerminalIsFinal(o: Origin, events: seq<Event>, r: Run, s: Step, at: int)
    requires Reaches(o, events, r) && Terminal(r)
    ensures Perform(r, s, at).Err?
  {
    hide ValidRun, Mutated, Shaped, Potential, Perform;
    RunLength(o, events, r);
    if Perform(r, s, at).Ok? {
      PerformUses(r, s, at, Perform(r, s, at).value);
    }
  }
}
