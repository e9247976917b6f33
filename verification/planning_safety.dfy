/** What holds over whole executions of a Planning Run. */
module PlanningSafety {
  import opened Wrappers
  import opened PlanningRuns
  import opened PlanningSteps
  import opened PlanningCandidates
  import opened PlanningHistory
  import Bound = PlanningBound

  /** A submitted attempt runs the exact worker its lease bound in time. */
  predicate SubmittedByBoundWorker(a: Attempt) {
    a.submittedAt.Some? ==>
      && a.dispatch.Some? && a.lease.observed.bound.Some?
      && a.dispatch.value.worker.pane == a.lease.observed.bound.value.pane
      && a.dispatch.value.worker.session == a.lease.binding.session
      && a.lease.claimedAt <= a.lease.observed.bound.value.boundAt <= a.lease.binding.bindDeadlineAt
  }

  predicate RoleSubmitted(rec: RoleRecord) {
    forall a :: a in rec.attempts ==> SubmittedByBoundWorker(a)
  }

  predicate DispatchFirst(rec: RoleRecord) {
    forall a :: a in rec.attempts && a.submittedAt.Some? ==> a.dispatch.Some?
  }

  /** The invariant of reachable runs. */
  predicate Safe(r: Run) {
    && InputsFrozen(r) && AppliedExactly(r)
    && DispatchFirst(r.roles.po) && DispatchFirst(r.roles.ba) && DispatchFirst(r.roles.qa) && DispatchFirst(r.roles.dev)
  }

  lemma InputStable(r: Run, next: Run, role: Role)
    requires StepKeeps(r, next) && InputFrozen(r, role) && RolesKept(r.roles, next.roles)
    requires RoleOrdered(r.roles.Get(role))
    ensures InputFrozen(next, role)
  {
    hide AttemptKept, RoleOrdered, AppliedExactly;
    var rec, rec' := r.roles.Get(role), next.roles.Get(role);
    assert RoleKept(rec, rec');
    if rec.attempts == [] && rec'.attempts != [] {
      assert FreshAttempt(r, role, rec');
    }
  }

  lemma DispatchStable(r: Run, next: Run, role: Role)
    requires StepKeeps(r, next) && RoleOrdered(r.roles.Get(role)) && RoleOrdered(next.roles.Get(role))
    requires DispatchFirst(r.roles.Get(role))
    ensures DispatchFirst(next.roles.Get(role))
  {
    hide AppliedExactly, RoleInputDigest, SameIdentity;
    var rec, rec' := r.roles.Get(role), next.roles.Get(role);
    assert RoleKept(rec, rec');
    if rec.attempts == [] && rec'.attempts != [] {
      assert FreshAttempt(r, role, rec');
    }
  }

  lemma StepSafe(r: Run, next: Run)
    requires StepKeeps(r, next) && Ordered(r) && Ordered(next) && Safe(r)
    ensures Safe(next)
  {
    hide RoleOrdered, RoleKept, InputFrozen, DispatchFirst, NewInputsFrozen;
    InputStable(r, next, PO);
    InputStable(r, next, BA);
    InputStable(r, next, QA);
    InputStable(r, next, DEV);
    DispatchStable(r, next, PO);
    DispatchStable(r, next, BA);
    DispatchStable(r, next, QA);
    DispatchStable(r, next, DEV);
  }

  lemma PerformSafe(r: Run, s: Step, at: int, next: Run)
    requires Perform(r, s, at) == Ok(next) && Safe(r)
    ensures Safe(next)
  {
    hide Perform, StepKeeps, Ordered, Safe;
    PerformKeeps(r, s, at, next);
    var unstamped := next.(revision := r.revision);
    assert Ordered(unstamped) by { SameOrdered(next, r.revision); }
    StepSafe(r, unstamped);
    RevisionIrrelevant(unstamped, next.revision);
    assert unstamped.(revision := next.revision) == next;
  }

  lemma SameOrdered(r: Run, revision: int)
    ensures Ordered(r.(revision := revision)) <==> Ordered(r)
  {
    hide RoleOrdered;
  }

  lemma RevisionIrrelevant(r: Run, revision: int)
    ensures Safe(r.(revision := revision)) <==> Safe(r)
  {
    hide DispatchFirst;
  }

  lemma FirstRun(o: Origin, r: Run)
    requires Reaches(o, [], r)
    ensures CreateRun(o.id, o.plan, o.at) == Ok(r)
  {
    hide CreateRun, Perform;
  }

  lemma CreatedSafe(o: Origin, r: Run)
    requires CreateRun(o.id, o.plan, o.at) == Ok(r)
    ensures Safe(r)
  {
    hide ValidRun;
  }

  lemma {:induction false} RunSafe(o: Origin, events: seq<Event>, r: Run)
    requires Reaches(o, events, r)
    ensures Safe(r)
    decreases |events|
  {
    hide Safe, Perform, CreateRun, Reaches;
    if events == [] {
      assert CreateRun(o.id, o.plan, o.at) == Ok(r) by { FirstRun(o, r); }
      CreatedSafe(o, r);
    } else {
      var before := ExecuteStep(o, events, r);
      RunSafe(o, events[..|events| - 1], before);
      PerformSafe(before, events[|events| - 1].step, events[|events| - 1].at, r);
    }
  }

  // ---------------------------------------------------------------- frozen inputs

  /** What a role works from: PO from the plan, BA from the complete report of PO as well, QA and DEV from those of PO and BA. */
  predicate WorksFrom(o: Origin, t: RoleTable, role: Role, d: InputDigest) {
    && d.runId == o.id && d.planId == o.plan.def.id && d.planRevision == o.plan.revision && d.planDigest == o.plan.def && d.role == role
    && match d.common
       case PoInput(plan) => role == PO && plan == o.plan
       case BaInput(plan, po, poOutput) =>
         role == BA && plan == o.plan && t.po.report == Some(poOutput) && poOutput.status == StComplete && po == poOutput.artifact
       case PeerInput(plan, po, ba, poOutput, baOutput) =>
         && (role == QA || role == DEV) && plan == o.plan
         && t.po.report == Some(poOutput) && poOutput.status == StComplete && po == poOutput.artifact
         && t.ba.report == Some(baOutput) && baOutput.status == StComplete && ba == baOutput.artifact
  }

  /** The roles before this one have reported completely. */
  predicate UpstreamComplete(r: Run, role: Role) {
    (role != PO ==> ReportComplete(r.roles.po)) && (role == QA || role == DEV ==> ReportComplete(r.roles.ba))
  }

  lemma ValidUpstream(r: Run, role: Role)
    requires ValidRun(r) && r.roles.Get(role).attempts != [] && r.phase != PhaseClosed
    ensures UpstreamComplete(r, role)
  {
    hide ValidSourcePlan, ValidCandidate, ValidOutbox, ValidSynthesisBlocker, ValidReceipts, ConditionLifecycle, ValidAttemptBinding,
      ValidAttemptLifecycle, ReportFor;
  }

  lemma ClosedByCancel(r: Run, s: Step, at: int, next: Run)
    requires Perform(r, s, at) == Ok(next) && next.phase == PhaseClosed && r.phase != PhaseClosed
    ensures next.roles == r.roles
  {
    hide ValidRun, LocalEffect, RoleInputDigest, SpawnRole, ReportRole, BuildCandidate, ReceiptAllowed, ContinueCleanupRole, UnresolvedWorker, CountKind,
      SynthesisReason, ReportBlocker;
  }

  lemma Upstream(o: Origin, events: seq<Event>, r: Run, role: Role)
    requires Reaches(o, events, r) && r.roles.Get(role).attempts != []
    ensures UpstreamComplete(r, role)
  {
    hide Reaches, Perform, ValidRun, UpstreamComplete, Bound.PlanningLength.Potential, Bound.PlanningLength.Shaped;
    Bound.RunLength(o, events, r);
    if r.phase != PhaseClosed {
      ValidUpstream(r, role);
    } else if events != [] {
      var n := |events| - 1;
      var before := ExecuteStep(o, events, r);
      Bound.RunLength(o, events[..n], before);
      if before.phase == PhaseClosed {
        Bound.TerminalIsFinal(o, events[..n], before, events[n].step, events[n].at);
        assert false;
      }
      ClosedByCancel(before, events[n].step, events[n].at, r);
      ValidUpstream(before, role);
      SameUpstream(before, r, role);
    } else {
      FirstRun(o, r);
      NewRun(o, r);
      assert false;
    }
  }

  lemma SameUpstream(r: Run, next: Run, role: Role)
    requires next.roles == r.roles
    ensures UpstreamComplete(next, role) <==> UpstreamComplete(r, role)
  {
  }

  lemma NewRun(o: Origin, r: Run)
    requires CreateRun(o.id, o.plan, o.at) == Ok(r)
    ensures r.phase == PhasePo
  {
    hide ValidRun;
  }

  /** Once a role is claimed, its input digest is for good the one recomputed from the source plan
      and the upstream reports. */
  lemma FrozenInput(o: Origin, events: seq<Event>, r: Run, role: Role) returns (d: InputDigest)
    requires Reaches(o, events, r) && r.roles.Get(role).attempts != []
    ensures r.roles.Get(role).inputDigest == Some(d) && RoleInputDigest(r, role) == Ok(d) && WorksFrom(o, r.roles, role, d)
  {
    hide Reaches, RoleInputDigest, AppliedExactly, DispatchFirst, WorksFrom, UpstreamComplete;
    RunSafe(o, events, r);
    d := r.roles.Get(role).inputDigest.value;
    SameOrigin(o, events, r);
    ReportIsDigest(o, events, r);
    Upstream(o, events, r, role);
    InputFrom(o, r, role, d);
  }

  lemma InputFrom(o: Origin, r: Run, role: Role, d: InputDigest)
    requires RoleInputDigest(r, role) == Ok(d) && UpstreamComplete(r, role)
    requires BindingOf(r) == RunBinding(o.id, o.plan.def.id, o.plan.revision, o.plan.def) && r.sourcePlan == o.plan
    requires r.roles.po.outputDigest == r.roles.po.report && r.roles.ba.outputDigest == r.roles.ba.report
    ensures WorksFrom(o, r.roles, role, d)
  {
  }

  /** QA and DEV work from the plan and the PO and BA reports alone: two runs of one origin that
      agree on those gave the peers the same input, whatever the other peer reported. */
  lemma PeersIndependent(o: Origin, events: seq<Event>, r: Run, events': seq<Event>, r': Run, role: Role)
    requires Reaches(o, events, r) && Reaches(o, events', r') && role in {QA, DEV}
    requires r.roles.Get(role).attempts != [] && r'.roles.Get(role).attempts != []
    requires r.roles.po.report == r'.roles.po.report && r.roles.ba.report == r'.roles.ba.report
    ensures r.roles.Get(role).inputDigest == r'.roles.Get(role).inputDigest
  {
    hide Reaches;
    SameOrigin(o, events, r);
    SameOrigin(o, events', r');
    var d := FrozenInput(o, events, r, role);
    var d' := FrozenInput(o, events', r', role);
    ReportIsDigest(o, events, r);
    ReportIsDigest(o, events', r');
  }

  lemma {:induction false} SameOrigin(o: Origin, events: seq<Event>, r: Run)
    requires Reaches(o, events, r)
    ensures BindingOf(r) == RunBinding(o.id, o.plan.def.id, o.plan.revision, o.plan.def) && r.sourcePlan == o.plan && r.createdAt == o.at
    decreases |events|
  {
    hide Perform;
    if events == [] {
      hide ValidRun;
    } else {
      hide Perform, Reaches, ValidRun;
      var before := ExecuteStep(o, events, r);
      SameOrigin(o, events[..|events| - 1], before);
      IdentityKept(before, events[|events| - 1].step, events[|events| - 1].at, r);
    }
  }

  lemma IdentityKept(r: Run, s: Step, at: int, next: Run)
    requires Perform(r, s, at) == Ok(next)
    ensures BindingOf(next) == BindingOf(r) && next.sourcePlan == r.sourcePlan && next.createdAt == r.createdAt
  {
    hide ValidRun, Mutated;
    MutatedIdentity(r, s, at, Mutated(r, s, at).value);
  }

  lemma ValidReports(r: Run)
    requires ValidRun(r)
    ensures r.roles.po.outputDigest == r.roles.po.report && r.roles.ba.outputDigest == r.roles.ba.report
  {
    hide ValidSourcePlan, ValidCandidate, ValidOutbox, ValidSynthesisBlocker, ValidReceipts, PhaseLifecycle, ConditionLifecycle,
      ValidAttemptBinding, ValidAttemptLifecycle, ReportFor;
  }

  lemma ReportIsDigest(o: Origin, events: seq<Event>, r: Run)
    requires Reaches(o, events, r)
    ensures r.roles.po.outputDigest == r.roles.po.report && r.roles.ba.outputDigest == r.roles.ba.report
  {
    hide *;
    Bound.RunLength(o, events, r);
    ValidReports(r);
  }

  // ---------------------------------------------------------------- leases

  lemma ValidBinding(r: Run, role: Role)
    requires ValidRun(r) && r.roles.Get(role).attempts != []
    ensures var a := r.roles.Get(role).attempts[0];
            a.lease.binding == ExpectedLeaseBinding(BindingOf(r), role, a.id, a.inputDigest, a.lease.binding.contextDigest,
                                                    a.lease.binding.launchDigest, a.lease.binding.bindDeadlineAt)
  {
    hide ValidSourcePlan, ValidCandidate, ValidOutbox, ValidSynthesisBlocker, ValidReceipts, PhaseLifecycle, ConditionLifecycle,
      ValidAttemptLifecycle, ReportFor, ExpectedLeaseBinding;
    var a := r.roles.Get(role).attempts[0];
    assert a in r.roles.Get(role).attempts;
    assert ValidAttemptBinding(a, role, BindingOf(r));
  }

  /** A scope belongs to one attempt: workers of different runs, plans, roles, attempts, inputs or launches never
      share one, nor a session. */
  lemma ScopeIsOwn(o: Origin, events: seq<Event>, r: Run, role: Role, o': Origin, events': seq<Event>, r': Run, role': Role)
    requires Reaches(o, events, r) && Reaches(o', events', r') && r.roles.Get(role).attempts != [] && r'.roles.Get(role').attempts != []
    ensures var (a, a') := (r.roles.Get(role).attempts[0], r'.roles.Get(role').attempts[0]);
            var (b, b') := (a.lease.binding, a'.lease.binding);
            (b.scopeUnit == b'.scopeUnit || b.session == b'.session || b.leaseId == b'.leaseId) ==>
              && BindingOf(r) == BindingOf(r') && role == role' && a.id == a'.id && a.inputDigest == a'.inputDigest
              && b.contextDigest == b'.contextDigest && b.launchDigest == b'.launchDigest && b.scopeDigest == b'.scopeDigest
  {
    hide Reaches, ValidRun;
    Bound.RunLength(o, events, r);
    Bound.RunLength(o', events', r');
    ValidBinding(r, role);
    ValidBinding(r', role');
  }

  // ---------------------------------------------------------------- between two states of a run

  /** What a role has stays: its input, its report, and its one attempt with lease, worker and submission. */
  predicate RoleSince(rec: RoleRecord, rec': RoleRecord) {
    && Kept(rec.report, rec'.report) && Kept(rec.outputDigest, rec'.outputDigest) && Kept(rec.inputDigest, rec'.inputDigest)
    && |rec.attempts| <= |rec'.attempts| <= 1
    && (|rec.attempts| == 1 ==> AttemptSince(rec.attempts[0], rec'.attempts[0]))
  }

  predicate Since(early: Run, late: Run) {
    && (forall role :: RoleSince(early.roles.Get(role), late.roles.Get(role)))
    && (early.condition == OffCourse ==> late.condition == OffCourse || late.condition == RunCanceled)
    && (early.candidate.Some? ==> late.candidate == early.candidate)
  }

  lemma SinceStep(early: Run, r: Run, next: Run)
    requires Since(early, r) && StepKeeps(r, next)
    requires r.condition == RunCanceled ==> r.phase == PhaseClosed && next.condition == RunCanceled
    ensures Since(early, next)
  {
    hide RoleInputDigest, SameIdentity, NewInputsFrozen, AppliedExactly;
    forall role ensures RoleSince(early.roles.Get(role), next.roles.Get(role)) {
      RoleSinceStep(early.roles.Get(role), r.roles.Get(role), next.roles.Get(role));
    }
  }

  lemma RoleSinceStep(early: RoleRecord, rec: RoleRecord, rec': RoleRecord)
    requires RoleSince(early, rec) && RoleKept(rec, rec')
    ensures RoleSince(early, rec')
  {
  }

  lemma SinceSelf(r: Run)
    requires Ordered(r)
    ensures Since(r, r)
  {
  }

  /** Everything a run has recorded about a role is still there in every later state of that run:
      one attempt, one submission, one report, and an attempt state that never goes back. */
  lemma {:induction false} RunSince(o: Origin, events: seq<Event>, k: nat, early: Run, late: Run)
    requires k <= |events| && Reaches(o, events[..k], early) && Reaches(o, events, late)
    ensures Since(early, late)
    decreases |events|
  {
    hide *;
    if k == |events| {
      assert events[..k] == events;
      SameRun(o, events, early, late);
      Bound.RunLength(o, events, late);
      ValidRunOrdered(late);
      SinceSelf(late);
    } else {
      var n := |events| - 1;
      var before := ExecuteStep(o, events, late);
      assert events[..n][..k] == events[..k];
      RunSince(o, events[..n], k, early, before);
      SinceLast(o, events[..n], early, before, events[n], late);
    }
  }

  lemma SameRun(o: Origin, events: seq<Event>, r: Run, r': Run)
    requires Reaches(o, events, r) && Reaches(o, events, r')
    ensures r == r'
  {
    hide Execute, CreateRun;
  }

  lemma SinceLast(o: Origin, events: seq<Event>, early: Run, before: Run, e: Event, late: Run)
    requires Since(early, before) && Reaches(o, events, before) && Perform(before, e.step, e.at) == Ok(late)
    ensures Since(early, late)
  {
    hide Reaches, Perform, Since, ValidRun, Ordered, StepKeeps, Bound.PlanningLength.Shaped,
      Bound.PlanningLength.Potential;
    PerformKeeps(before, e.step, e.at, late);
    Bound.RunLength(o, events, before);
    if before.condition == RunCanceled {
      ValidPhase(before);
      Bound.TerminalIsFinal(o, events, before, e.step, e.at);
      assert false;
    }
    SinceStep(early, before, late.(revision := before.revision));
    UnstampedSince(early, late, before.revision);
  }

  lemma UnstampedSince(early: Run, late: Run, revision: int)
    ensures Since(early, late.(revision := revision)) <==> Since(early, late)
  {
    hide RoleSince;
  }

  /** No role is handed out twice in one run. */
  lemma OneAttempt(o: Origin, events: seq<Event>, r: Run, i: nat, j: nat)
    requires i < j < |events| && Reaches(o, events, r)
    requires events[i].step.ClaimSpawn? && events[j].step.ClaimSpawn?
    ensures events[i].step.role != events[j].step.role
  {
    hide Reaches, Perform, Since;
    var role := events[i].step.role;
    var before, early := StatesAround(o, events, r, i);
    var late, after := StatesAround(o, events, r, j);
    assert events[..j][..i + 1] == events[..i + 1];
    RunSince(o, events[..j], i + 1, early, late);
    SpawnedOnce(before, events[i].step, events[i].at, role, early);
    if events[j].step.role == role {
      SpawnedOnce(late, events[j].step, events[j].at, role, after);
      SinceAttempts(early, late, role);
      assert false;
    }
  }

  lemma SpawnedOnce(r: Run, s: Step, at: int, role: Role, next: Run)
    requires s.ClaimSpawn? && RoleOf(s) == Some(role) && Perform(r, s, at) == Ok(next)
    ensures r.roles.Get(role).attempts == [] && next.roles.Get(role).attempts != []
  {
    hide ValidRun, RoleInputDigest, ValidLease;
    hide LocalMutation, BlamingMutation, RecordReportStep, WaitMutation, RetryMutation, ContinueMutation,
      CompileStep, ClaimApplyStep, AppliedStep, ReconcileApplyStep, AbandonStep, OffCourseStep, CancelStep;
  }

  lemma SinceAttempts(early: Run, late: Run, role: Role)
    requires Since(early, late) && early.roles.Get(role).attempts != []
    ensures late.roles.Get(role).attempts != []
    ensures Rank(early.roles.Get(role).attempts[0].state) <= Rank(late.roles.Get(role).attempts[0].state)
  {
    assert RoleSince(early.roles.Get(role), late.roles.Get(role));
  }

  /** No role is submitted twice in one run. */
  lemma OneSubmission(o: Origin, events: seq<Event>, r: Run, i: nat, j: nat)
    requires i < j < |events| && Reaches(o, events, r)
    requires events[i].step.MarkDispatched? && events[j].step.MarkDispatched?
    ensures events[i].step.role != events[j].step.role
  {
    hide Reaches, Perform, Since;
    var role := events[i].step.role;
    var before, early := StatesAround(o, events, r, i);
    var late, after := StatesAround(o, events, r, j);
    assert events[..j][..i + 1] == events[..i + 1];
    RunSince(o, events[..j], i + 1, early, late);
    SubmittedOnce(before, events[i].step, events[i].at, role, early);
    if events[j].step.role == role {
      SubmittedOnce(late, events[j].step, events[j].at, role, after);
      SinceAttempts(early, late, role);
      assert false;
    }
  }

  predicate OneAttemptIn(rec: RoleRecord, state: AttemptState) {
    |rec.attempts| == 1 && rec.attempts[0].state == state
  }

  lemma SubmittedOnce(r: Run, s: Step, at: int, role: Role, next: Run)
    requires s.MarkDispatched? && RoleOf(s) == Some(role) && Perform(r, s, at) == Ok(next)
    ensures OneAttemptIn(r.roles.Get(role), Dispatching) && OneAttemptIn(next.roles.Get(role), Submitted)
  {
    hide ValidRun, RoleOrdered, BuildCandidate;
    ValidRunOrdered(r);
    SubmitAttempts(r.roles.Get(role), s.attemptId, at);
    Bound.GetWith(r.roles, role, next.roles.Get(role));
  }

  lemma SubmitAttempts(rec: RoleRecord, attemptId: string, at: int)
    requires RoleOrdered(rec)
    ensures match SubmitRole(rec, attemptId, at)
            case Ok(next) => OneAttemptIn(rec, Dispatching) && OneAttemptIn(next, Submitted)
            case Err(_) => true
  {
    hide AttemptOrdered;
  }

  /** The states before and after one event of an execution. */
  lemma {:induction false} StatesAround(o: Origin, events: seq<Event>, r: Run, i: nat) returns (before: Run, after: Run)
    requires i < |events| && Reaches(o, events, r)
    ensures Reaches(o, events[..i], before) && Reaches(o, events[..i + 1], after)
    ensures Perform(before, events[i].step, events[i].at) == Ok(after)
    decreases |events|
  {
    hide Reaches, Perform;
    before := ExecuteStep(o, events, r);
    if i == |events| - 1 {
      assert events[..i + 1] == events;
      after := r;
    } else {
      var shorter := events[..|events| - 1];
      assert shorter[..i] == events[..i] && shorter[..i + 1] == events[..i + 1] && shorter[i] == events[i];
      before, after := StatesAround(o, shorter, before, i);
    }
  }

  /** Leaving the course is final: only cancelling the run ends it. */
  lemma OffCourseLeftByCancel(r: Run, s: Step, at: int, next: Run)
    requires Perform(r, s, at) == Ok(next) && r.condition == OffCourse && next.condition != OffCourse
    ensures s.CancelRun? && next.condition == RunCanceled && next.phase == PhaseClosed
  {
    hide ValidRun, Mutated, StepKeeps, Ordered;
    PerformKeeps(r, s, at, next);
    MovedFromOffCourse(r, next.(revision := r.revision));
    CanceledByCancel(r, s, at, Mutated(r, s, at).value);
  }

  lemma MovedFromOffCourse(r: Run, next: Run)
    requires StepKeeps(r, next) && r.condition == OffCourse && next.condition != OffCourse
    ensures next.condition == RunCanceled && next.phase == PhaseClosed
  {
    hide RolesKept, NewInputsFrozen, AppliedExactly;
  }

  lemma CanceledByCancel(r: Run, s: Step, at: int, m: Run)
    requires Mutated(r, s, at) == Ok(m) && m.condition == RunCanceled && r.condition == OffCourse
    ensures s.CancelRun?
  {
    hide RoleInputDigest, SpawnRole, ReportRole, BuildCandidate, ReceiptAllowed, ContinueCleanupRole,
      UnresolvedWorker, CountKind, SameIdentity, LocalMutation, BlamingMutation;
    if LocalStep(s) || BlamingStep(s) {
      RoleStepsNeverCancel(r, s, at, m);
    }
  }

  lemma RoleStepsNeverCancel(r: Run, s: Step, at: int, m: Run)
    requires LocalStep(s) || BlamingStep(s)
    requires Mutated(r, s, at) == Ok(m) && r.condition == OffCourse
    ensures m.condition == OffCourse
  {
    hide LocalEffect, AdvancedPhase, SameIdentity, RecordReportStep, SpawnMutation, WaitMutation, RetryMutation,
      ContinueMutation, CompileStep, ClaimApplyStep, AppliedStep, ReconcileApplyStep, AbandonStep, OffCourseStep,
      CancelStep;
  }

  // ---------------------------------------------------------------- workers and application

  lemma ValidSubmission(rec: RoleRecord, role: Role, b: RunBinding)
    requires ValidRole(rec, role, b) && DispatchFirst(rec)
    ensures RoleSubmitted(rec)
  {
    hide ValidCleanup, ValidStop, ValidPane, ReportFor;
  }

  /** In every reachable state a submitted attempt carries the exact pane its lease bound, bound
      no later than the deadline, five minutes after the claim at most. */
  lemma SubmittedWorkers(o: Origin, events: seq<Event>, r: Run, role: Role)
    requires Reaches(o, events, r)
    ensures RoleSubmitted(r.roles.Get(role))
  {
    hide Reaches, RoleSubmitted, InputsFrozen, AppliedExactly, DispatchFirst, ValidRun, ValidRole,
      Bound.PlanningLength.Potential, Bound.PlanningLength.Shaped;
    RunSafe(o, events, r);
    Bound.RunLength(o, events, r);
    assert ValidRole(r.roles.Get(role), role, BindingOf(r)) by { ValidGet(r, role); }
    ValidSubmission(r.roles.Get(role), role, BindingOf(r));
  }

  lemma ValidGet(r: Run, role: Role)
    requires ValidRun(r)
    ensures ValidRole(r.roles.Get(role), role, BindingOf(r))
  {
    hide ValidSourcePlan, ValidCandidate, ValidOutbox, ValidSynthesisBlocker, ValidReceipts, PhaseLifecycle, ConditionLifecycle, ValidRole;
  }

  /** An applied run took the plan revision after its source plan and the previewed definition,
      rebuilt from the four complete reports of workers that were all cleaned up. */
  lemma AppliedRun(o: Origin, events: seq<Event>, r: Run) returns (c: Candidate)
    requires Reaches(o, events, r) && r.phase == PhaseApplied
    ensures r.candidate == Some(c) && BuildCandidate(r, c.compiledAt) == Ok(c)
    ensures r.applyOutbox.appliedPlanRevision == Some(o.plan.revision + 1)
    ensures r.applyOutbox.appliedPlanDigest == Some(c.previewPlanDigest) && r.applyOutbox.candidateDigest == Some(c.digest)
    ensures FromReports(r.roles, c.outputs, c.previewPlanDigest) && Synthesized(o.plan.def, c.outputs, c.previewPlanDigest)
    ensures AllReportsComplete(r.roles) && c.ready
    ensures CompletedAndCleaned(r.roles.po) && CompletedAndCleaned(r.roles.ba)
    ensures CompletedAndCleaned(r.roles.qa) && CompletedAndCleaned(r.roles.dev)
  {
    hide Reaches, InputsFrozen, DispatchFirst, ValidRun, CompletedAndCleaned, BuildCandidate, FromReports, Synthesized,
      Bound.PlanningLength.Shaped, Bound.PlanningLength.RolesRest, AllReportsComplete, ReportComplete;
    RunSafe(o, events, r);
    SameOrigin(o, events, r);
    Bound.RunLength(o, events, r);
    c := ValidApplied(r);
    CandidateDefinition(r, c.compiledAt, c);
    CleanedReport(r, PO);
    CleanedReport(r, BA);
    CleanedReport(r, QA);
    CleanedReport(r, DEV);
    assert AllReportsComplete(r.roles) by { AllReports(r.roles); }
  }

  lemma CleanedReport(r: Run, role: Role)
    requires ValidRun(r) && CompletedAndCleaned(r.roles.Get(role))
    ensures ReportComplete(r.roles.Get(role))
  {
    hide ValidRun, ValidAttemptBinding, ValidAttemptLifecycle, ReportFor;
    ValidGet(r, role);
  }

  lemma AllReports(t: RoleTable)
    requires forall role :: ReportComplete(t.Get(role))
    ensures AllReportsComplete(t)
  {
    hide ReportComplete;
    assert ReportComplete(t.Get(PO)) && ReportComplete(t.Get(BA)) && ReportComplete(t.Get(QA)) && ReportComplete(t.Get(DEV));
  }

  lemma ValidApplied(r: Run) returns (c: Candidate)
    requires ValidRun(r) && r.phase == PhaseApplied
    ensures r.applyOutbox.state == ApplyApplied && r.candidate == Some(c) && ValidCandidate(c, r)
    ensures r.applyOutbox.candidateDigest == Some(c.digest)
    ensures CompletedAndCleaned(r.roles.po) && CompletedAndCleaned(r.roles.ba)
    ensures CompletedAndCleaned(r.roles.qa) && CompletedAndCleaned(r.roles.dev)
  {
    hide ValidSourcePlan, ValidRoles, ValidCandidate, ValidSynthesisBlocker, ValidReceipts, ConditionLifecycle, CompletedAndCleaned;
    c := r.candidate.value;
  }
}
