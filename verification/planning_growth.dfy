/** How many bytes the steps that end a Planning Run add to its JSON text. */
module PlanningGrowth {
  import opened Wrappers
  import opened JsonBytes
  import opened PlanningRuns
  import opened PlanningSteps
  import opened PlanningLiveness
  import opened PlanningSizes

  // ---------------------------------------------------------------- storing a changed copy

  /** The next revision and the time of the change. */
  function StampGrowth(r: Run, at: int): int {
    IntBytes(r.revision + 1) - IntBytes(r.revision) + TimeBytes(at) - TimeBytes(r.updatedAt)
  }

  lemma StampedBytes(m: Measures, r: Run, next: Run, at: int)
    requires SameIdentity(r, next) && next.updatedAt == r.updatedAt
    ensures RunBytes(m, Stamped(next, at)) == RunBytes(m, next) + StampGrowth(r, at)
  {
    hide FixedBytes, TableBytes, CandidateBytes, OutboxBytes, BlockerBytes, ReceiptsSum, IntBytes, TimeBytes, Quoted,
      ListFrame;
    FixedKept(next, Stamped(next, at));
  }

  lemma FixedKept(r: Run, next: Run)
    requires BindingOf(next) == BindingOf(r) && next.sourcePlan == r.sourcePlan && next.createdAt == r.createdAt
    ensures FixedBytes(next) == FixedBytes(r)
  {
    hide PlanBytes, BaselineBytes, Frame, Quoted, TimeBytes, IntBytes;
  }

  lemma WithRoleBytes(m: Measures, r: Run, role: Role, rec: RoleRecord)
    ensures RunBytes(m, WithRole(r, role, rec)) == RunBytes(m, r) + RoleBytes(rec) - RoleBytes(r.roles.Get(role))
  {
    hide FixedBytes, RoleBytes, CandidateBytes, OutboxBytes, BlockerBytes, ReceiptsSum, IntBytes, TimeBytes, Quoted,
      ListFrame, Frame;
    FixedKept(r, WithRole(r, role, rec));
  }

  lemma ConditionBytes(m: Measures, r: Run, next: Run)
    requires next == r.(phase := next.phase, condition := next.condition, blocker := next.blocker)
    ensures RunBytes(m, next) == RunBytes(m, r) + Name(PhaseName(next.phase)) - Name(PhaseName(r.phase))
                                 + Name(ConditionName(next.condition)) - Name(ConditionName(r.condition))
                                 + Quoted(next.blocker) - Quoted(r.blocker)
  {
    hide FixedBytes, TableBytes, CandidateBytes, OutboxBytes, BlockerBytes, ReceiptsSum, IntBytes, TimeBytes, Quoted,
      ListFrame, PhaseName, ConditionName;
    FixedKept(r, next);
  }

  // ---------------------------------------------------------------- leaving the course and cancelling

  function LeaveGrowth(r: Run, reason: string): int {
    Name(ConditionName(OffCourse)) - Name(ConditionName(r.condition)) + Quoted(reason) - Quoted(r.blocker)
  }

  function CancelGrowth(r: Run, reason: string): int {
    Name(PhaseName(PhaseClosed)) - Name(PhaseName(r.phase)) + Name(ConditionName(RunCanceled)) - Name(ConditionName(r.condition))
    + Quoted(reason) - Quoted(r.blocker)
  }

  lemma LeaveBytes(m: Measures, r: Run, reason: string, at: int, next: Run)
    requires Perform(r, LeaveCourse(reason), at) == Ok(next)
    ensures RunBytes(m, next) == RunBytes(m, r) + StampGrowth(r, at) + LeaveGrowth(r, reason)
  {
    hide LocalMutation, BlamingMutation, SpawnMutation, RecordReportStep, WaitMutation, RetryMutation,
      ContinueMutation, CompileStep, ClaimApplyStep, AppliedStep, ReconcileApplyStep, AbandonStep, CancelStep;
    hide ValidRun, RunBytes, StampGrowth, Quoted, ConditionName, PhaseName;
    assert Mutated(r, LeaveCourse(reason), at) == OffCourseStep(r, reason);
    var left := r.(condition := OffCourse, blocker := reason);
    ConditionBytes(m, r, left);
    StampedBytes(m, r, left, at);
  }

  lemma CancelBytes(m: Measures, r: Run, confirmed: bool, reason: string, at: int, next: Run)
    requires Perform(r, CancelRun(confirmed, reason), at) == Ok(next)
    ensures RunBytes(m, next) == RunBytes(m, r) + StampGrowth(r, at) + CancelGrowth(r, reason)
  {
    hide LocalMutation, BlamingMutation, SpawnMutation, RecordReportStep, WaitMutation, RetryMutation,
      ContinueMutation, CompileStep, ClaimApplyStep, AppliedStep, ReconcileApplyStep, AbandonStep, OffCourseStep;
    hide ValidRun, RunBytes, StampGrowth, Quoted, ConditionName, PhaseName, UnresolvedWorker;
    assert Mutated(r, CancelRun(confirmed, reason), at) == CancelStep(r, confirmed, reason);
    var canceled := r.(phase := PhaseClosed, condition := RunCanceled, blocker := reason);
    ConditionBytes(m, r, canceled);
    StampedBytes(m, r, canceled, at);
  }

  // ---------------------------------------------------------------- abandoning an application

  function AbandonGrowth(o: ApplyOutbox, at: int): int {
    Name(ApplyName(Abandoned)) - Name(ApplyName(o.state))
    + Name("plan_receipt_absent") - (if o.receiptAbsent then Name("plan_receipt_absent") else EMPTY_TEXT)
    + Quoted(REASON) - Quoted(o.error) + TimeBytes(at) - TimeBytes(o.updatedAt)
  }

  lemma AbandonBytes(m: Measures, r: Run, claimId: string, digest: CandidateDigest, at: int, next: Run)
    requires Perform(r, AbandonApply(claimId, digest, REASON), at) == Ok(next)
    ensures RunBytes(m, next) == RunBytes(m, r) + StampGrowth(r, at) + AbandonGrowth(r.applyOutbox, at)
  {
    hide LocalMutation, BlamingMutation, SpawnMutation, RecordReportStep, WaitMutation, RetryMutation,
      ContinueMutation, CompileStep, ClaimApplyStep, AppliedStep, ReconcileApplyStep, OffCourseStep, CancelStep;
    hide ValidRun, StampGrowth, Quoted, ApplyName, RunBytes, TimeBytes;
    assert Mutated(r, AbandonApply(claimId, digest, REASON), at) == AbandonStep(r, claimId, digest, REASON, at);
    var abandoned := r.(applyOutbox := AbandonedOutbox(r.applyOutbox, at));
    AbandonedBytes(m, r, at);
    StampedBytes(m, r, abandoned, at);
  }

  lemma AbandonedBytes(m: Measures, r: Run, at: int)
    ensures RunBytes(m, r.(applyOutbox := AbandonedOutbox(r.applyOutbox, at))) == RunBytes(m, r) + AbandonGrowth(r.applyOutbox, at)
  {
    hide FixedBytes, TableBytes, CandidateBytes, BlockerBytes, ReceiptsSum, IntBytes, TimeBytes, Quoted, ListFrame,
      Frame, PhaseName, ConditionName, ApplyName;
    FixedKept(r, r.(applyOutbox := AbandonedOutbox(r.applyOutbox, at)));
  }

  // ---------------------------------------------------------------- accounting for a worker

  function CleanupGrowth(c: Cleanup, at: int): int {
    match c.state
    case CleanupPending =>
      Name(CleanupName(CleanupClaimed)) - Name(CleanupName(c.state)) + Quoted(CLAIM) - Quoted(c.claimId) + TimeBytes(at) - OptionalTime(c.claimedAt)
    case CleanupClaimed => Name(CleanupName(CleanupSent)) - Name(CleanupName(c.state)) + TimeBytes(at) - OptionalTime(c.sentAt)
    case CleanupReconcile =>
      Name(CleanupName(CleanupComplete)) - Name(CleanupName(c.state)) + EMPTY_TEXT - Quoted(c.claimId)
      + NULL - OptionalTime(c.claimedAt) + NULL - OptionalTime(c.sentAt) + TimeBytes(at) - OptionalTime(c.completedAt)
      + EMPTY_TEXT - Quoted(c.error) + Name(RecoveryName(WorkerAbsent)) - Name(RecoveryName(c.recoveryOutcome))
      + TimeBytes(at) - OptionalTime(c.recoveredAt) + IntBytes(c.recoveryCount + 1) - IntBytes(c.recoveryCount)
      + ListFrame(6, |c.history| + 1) - ListFrame(6, |c.history|) + RecoveryBytes(Recovery(WorkerAbsent, "", at))
    case _ => Name(CleanupName(CleanupComplete)) - Name(CleanupName(c.state)) + TimeBytes(at) - OptionalTime(c.completedAt)
  }

  function CrashGrowth(rec: RoleRecord, a: Attempt, at: int): int {
    Name(RoleStateName(RoleFailed)) - Name(RoleStateName(rec.state)) + Name(AttemptName(Crashed)) - Name(AttemptName(a.state))
    + TimeBytes(at) - OptionalTime(a.finishedAt) + Name(OutcomeName(OutCrashed)) - Name(OutcomeName(a.outcome))
    + Quoted(REASON) - Quoted(a.summary) + Quoted(REASON) - Quoted(a.error)
    + if a.dispatch.Some? then CleanupBytes(PENDING_CLEANUP) - NULL else 0
  }

  function StopGrowth(s: StopRequest, at: int): int {
    Name(StopName(StopComplete)) - Name(StopName(s.state)) + TimeBytes(at) - OptionalTime(s.completedAt)
    + Name(ObservationName(ScopeAndPaneAbsent)) - (if s.observation == NothingSeen then EMPTY_TEXT else Name(ObservationName(s.observation)))
  }

  function CloseGrowth(rec: RoleRecord, a: Attempt, at: int): int {
    Name(RoleStateName(RoleFailed)) - Name(RoleStateName(rec.state)) + Name(AttemptName(Crashed)) - Name(AttemptName(a.state))
    + (if a.finishedAt.Some? then 0 else TimeBytes(at) - NULL) + Name(OutcomeName(OutCrashed)) - Name(OutcomeName(a.outcome))
    + Quoted(ABSENT) - Quoted(a.summary) + Quoted(REASON) - Quoted(a.error)
    + Name(LeaseName(LeaseClosed)) - Name(LeaseName(a.lease.state)) + Quoted(REASON) - Quoted(a.lease.error)
    + Name(ObservationName(ScopeAndPaneAbsent)) - Name(ObservationName(a.lease.observed.status))
    + TimeBytes(at) - OptionalTime(a.lease.observed.observedAt)
    + if a.lease.stop.Some? then StopGrowth(a.lease.stop.value, at) else 0
  }

  /** What the closing step of an attempt adds to the record of its role. */
  function RoleClosingGrowth(rec: RoleRecord, a: Attempt, at: int): int {
    if a.cleanup.Some? then CleanupGrowth(a.cleanup.value, at)
    else if a.state in {Dispatching, Submitted} then CrashGrowth(rec, a, at)
    else CloseGrowth(rec, a, at)
  }

  lemma OneAttemptBytes(a: Attempt)
    ensures AttemptsSum([a]) == AttemptBytes(a)
  {
    hide AttemptBytes;
    assert [a][..0] == [];
  }

  /** Another attempt, and another state, in a role record. */
  lemma AttemptReplaced(rec: RoleRecord, a: Attempt, state: RoleState, a': Attempt)
    requires rec.attempts == [a]
    ensures RoleBytes(rec.(state := state, attempts := [a']))
            == RoleBytes(rec) + AttemptBytes(a') - AttemptBytes(a) + Name(RoleStateName(state)) - Name(RoleStateName(rec.state))
  {
    hide AttemptBytes, ReportBytes, Frame, ListFrame, RoleStateName;
    OneAttemptBytes(a);
    OneAttemptBytes(a');
  }

  lemma CleanupReplaced(rec: RoleRecord, a: Attempt, c: Cleanup, c': Cleanup)
    requires rec.attempts == [a] && a.cleanup == Some(c)
    ensures RoleBytes(Recleaned(rec, c')) == RoleBytes(rec) + CleanupBytes(c') - CleanupBytes(c)
  {
    hide CleanupBytes, LeaseBytes, DispatchBytes, Frame, Quoted, TimeBytes, OptionalTime, RoleBytes, AttemptName,
      OutcomeName, RoleStateName;
    var a' := a.(cleanup := Some(c'));
    assert [a][0 := a'] == [a'];
    AttemptReplaced(rec, a, rec.state, a');
  }

  function NextCleanup(c: Cleanup, at: int): Cleanup {
    match c.state
    case CleanupPending => c.(state := CleanupClaimed, claimId := CLAIM, claimedAt := Some(at))
    case CleanupClaimed => c.(state := CleanupSent, sentAt := Some(at))
    case CleanupReconcile => Recovered(c, WorkerAbsent, "", at)
    case _ => c.(state := CleanupComplete, completedAt := Some(at))
  }

  lemma CleanupEffect(rec: RoleRecord, a: Attempt, c: Cleanup, role: Role, at: int, rec': RoleRecord)
    requires rec.attempts == [a] && a.cleanup == Some(c) && LocalEffect(rec, RoleClosing(role, a), at) == Ok(rec')
    ensures rec' == Recleaned(rec, NextCleanup(c, at))
  {
    hide WithCleanup, Recovered, LocalEffect;
    EffectOf(rec, RoleClosing(role, a), at);
  }

  lemma CleanupStepBytes(rec: RoleRecord, a: Attempt, c: Cleanup, role: Role, at: int, rec': RoleRecord)
    requires rec.attempts == [a] && a.cleanup == Some(c) && LocalEffect(rec, RoleClosing(role, a), at) == Ok(rec')
    ensures RoleBytes(rec') == RoleBytes(rec) + CleanupGrowth(c, at)
  {
    hide *;
    CleanupEffect(rec, a, c, role, at, rec');
    CleanupReplaced(rec, a, c, NextCleanup(c, at));
    NextBytes(c, at);
  }

  lemma NextBytes(c: Cleanup, at: int)
    ensures CleanupBytes(NextCleanup(c, at)) == CleanupBytes(c) + CleanupGrowth(c, at)
  {
    hide RecoveryBytes, HistorySum, Frame, Quoted, TimeBytes, ListFrame, IntBytes, CleanupName, RecoveryName,
      Recovered;
    if c.state == CleanupReconcile {
      RecoveredBytes(c, at);
    }
  }

  lemma RecoveredBytes(c: Cleanup, at: int)
    requires c.state == CleanupReconcile
    ensures CleanupBytes(Recovered(c, WorkerAbsent, "", at)) == CleanupBytes(c) + CleanupGrowth(c, at)
  {
    hide RecoveryBytes, HistorySum, Frame, Quoted, TimeBytes, ListFrame, IntBytes, CleanupName, RecoveryName;
    HistoryPush(c.history, Recovery(WorkerAbsent, "", at));
    NoText();
  }

  lemma HistoryPush(h: seq<Recovery>, x: Recovery)
    ensures HistorySum(h + [x]) == HistorySum(h) + RecoveryBytes(x)
  {
    hide RecoveryBytes;
    assert (h + [x])[..|h|] == h;
  }

  lemma CrashBytes(rec: RoleRecord, a: Attempt, id: string, at: int, rec': RoleRecord)
    requires rec.attempts == [a] && a.cleanup.None? && UnreportedRole(rec, id, OutCrashed, REASON, at) == Ok(rec')
    ensures RoleBytes(rec') == RoleBytes(rec) + CrashGrowth(rec, a, at)
  {
    hide RoleBytes, CleanupBytes, LeaseBytes, DispatchBytes, Frame, Quoted, TimeBytes, AttemptName,
      OutcomeName, RoleStateName;
    var a' := FinishedAttempt(a, OutCrashed, REASON, REASON, at).(state := Crashed);
    assert [a][0 := a'] == [a'];
    AttemptReplaced(rec, a, RoleFailed, a');
  }

  /** The stop request once its outcome is known. */
  function Stopped(stop: Option<StopRequest>, at: int): Option<StopRequest> {
    match stop
    case Some(x) => Some(x.(state := StopComplete, completedAt := Some(at), observation := ScopeAndPaneAbsent))
    case None => None
  }

  lemma ClosedBytes(rec: RoleRecord, a: Attempt, at: int, rec': RoleRecord)
    requires rec.attempts == [a] && a.cleanup.None?
    requires ClosesTo(rec, a, a.lease.(stop := Stopped(a.lease.stop, at)), at, rec')
    ensures RoleBytes(rec') == RoleBytes(rec) + CloseGrowth(rec, a, at)
  {
    hide RoleBytes, DispatchBytes, Frame, Quoted, TimeBytes, PaneBytes, AttemptName, OutcomeName, RoleStateName,
      LeaseName, ObservationName, StopName, SessionBytes, LeaseIdBytes, ScopeUnitBytes, CleanupBytes;
    AttemptReplaced(rec, a, RoleFailed, rec'.attempts[0]);
    assert rec'.attempts == [rec'.attempts[0]];
  }

  /** Closing the provisional attempt on this lease gives that record. */
  predicate ClosesTo(rec: RoleRecord, a: Attempt, lease: SpawnLease, at: int, rec': RoleRecord) {
    rec.attempts != [] && rec' == ClosedProvisional(rec, a, lease, REASON, at)
  }

  lemma RoleClosingBytes(rec: RoleRecord, a: Attempt, role: Role, at: int, rec': RoleRecord)
    requires rec.attempts == [a] && LocalEffect(rec, RoleClosing(role, a), at) == Ok(rec')
    ensures RoleBytes(rec') == RoleBytes(rec) + RoleClosingGrowth(rec, a, at)
  {
    hide RoleBytes, ClosedProvisional, CleanupGrowth, CrashGrowth, CloseGrowth, BindRole, ClaimStopRole, SendStopRole,
      DispatchRole, SubmitRole, ReconcileLeaseRole, ReconcileCleanupRole, ClaimCleanupRole, SendCleanupRole,
      CompleteCleanupRole, RecoverRole, UnreportedRole;
    if a.cleanup.Some? {
      CleanupStepBytes(rec, a, a.cleanup.value, role, at, rec');
    } else if a.state in {Dispatching, Submitted} {
      CrashBytes(rec, a, a.id, at, rec');
    } else {
      ClosedBytes(rec, a, at, rec');
    }
  }

  // ---------------------------------------------------------------- the closing step

  /** What the closing step adds at this time, from the run alone. */
  function ClosingGrowth(r: Run, at: int): int {
    StampGrowth(r, at) +
    if r.condition != OffCourse then LeaveGrowth(r, REASON)
    else if r.applyOutbox.state in {ApplyClaimed, ApplyReconcile}
      && r.applyOutbox.candidateDigest.Some? then AbandonGrowth(r.applyOutbox, at)
    else match Unresolved(r)
         case Some(role) =>
           var rec := r.roles.Get(role);
           if rec.attempts != [] then RoleClosingGrowth(rec, rec.attempts[|rec.attempts| - 1], at) else CancelGrowth(r, REASON)
         case None => CancelGrowth(r, REASON)
  }

  lemma ClosingBytes(m: Measures, r: Run, at: int, next: Run)
    requires Perform(r, Closing(r), at) == Ok(next)
    ensures RunBytes(m, next) == RunBytes(m, r) + ClosingGrowth(r, at)
  {
    hide Perform, RunBytes, StampGrowth, LeaveGrowth, AbandonGrowth, CancelGrowth, RoleClosingGrowth, RoleClosing,
      UnresolvedRole;
    if r.condition != OffCourse {
      LeaveBytes(m, r, REASON, at, next);
    } else if r.applyOutbox.state in {ApplyClaimed, ApplyReconcile} && r.applyOutbox.candidateDigest.Some? {
      AbandonBytes(m, r, r.applyOutbox.claimId, r.applyOutbox.candidateDigest.value, at, next);
    } else if Unresolved(r).Some? && r.roles.Get(Unresolved(r).value).attempts != [] {
      var role := Unresolved(r).value;
      var rec := r.roles.Get(role);
      AccountingBytes(m, r, role, rec.attempts[|rec.attempts| - 1], at, next);
    } else {
      CancelBytes(m, r, true, REASON, at, next);
    }
  }

  /** The last attempt of a role. */
  predicate LastIs(rec: RoleRecord, a: Attempt) {
    rec.attempts != [] && rec.attempts[|rec.attempts| - 1] == a
  }

  lemma ValidBefore(r: Run, s: Step, at: int, next: Run) returns (m: Run)
    requires Perform(r, s, at) == Ok(next)
    ensures ValidRun(r) && Mutated(r, s, at) == Ok(m) && next == Stamped(m, at)
  {
    hide ValidRun, Mutated;
    m := Mutated(r, s, at).value;
  }

  lemma AccountingBytes(m: Measures, r: Run, role: Role, a: Attempt, at: int, next: Run)
    requires r.condition == OffCourse && LastIs(r.roles.Get(role), a) && Perform(r, RoleClosing(role, a), at) == Ok(next)
    ensures RunBytes(m, next) == RunBytes(m, r) + StampGrowth(r, at) + RoleClosingGrowth(r.roles.Get(role), a, at)
  {
    hide Perform, RunBytes, StampGrowth, RoleClosingGrowth, RoleBytes, RoleClosing;
    var rec' := Accounted(r, role, a, at, next);
    WithRoleBytes(m, r, role, rec');
    StampedBytes(m, r, WithRole(r, role, rec'), at);
  }

  /** The record such a step leaves, and its bytes. */
  lemma Accounted(r: Run, role: Role, a: Attempt, at: int, next: Run) returns (rec': RoleRecord)
    requires r.condition == OffCourse && LastIs(r.roles.Get(role), a) && Perform(r, RoleClosing(role, a), at) == Ok(next)
    ensures next == Stamped(WithRole(r, role, rec'), at) && r.roles.Get(role).attempts == [a]
    ensures LocalEffect(r.roles.Get(role), RoleClosing(role, a), at) == Ok(rec')
    ensures RoleBytes(rec') == RoleBytes(r.roles.Get(role)) + RoleClosingGrowth(r.roles.Get(role), a, at)
  {
    hide Perform, ValidRun, ValidRole, Mutated, RoleClosingGrowth, RoleBytes, RoleClosing, LocalEffect, LocalStep,
      BlamingStep, WithRole, Stamped;
    var s := RoleClosing(role, a);
    var m := ValidBefore(r, s, at, next);
    GetValid(r, role);
    RoleStep(role, a);
    rec' := AccountedCopy(r, s, role, at, m);
    assert r.roles.Get(role).attempts == [a];
    RoleClosingBytes(r.roles.Get(role), a, role, at, rec');
  }

  lemma CleanupStamped(rec: RoleRecord, a: Attempt, c: Cleanup, at: int)
    requires rec.attempts == [a] && a.cleanup == Some(c) && StampedBy(rec, at)
    ensures StampedBy(Recleaned(rec, NextCleanup(c, at)), at)
  {
    assert a in rec.attempts;
    var a' := a.(cleanup := Some(NextCleanup(c, at)));
    assert [a][0 := a'] == [a'];
  }

  lemma CrashStamped(rec: RoleRecord, a: Attempt, id: string, at: int, rec': RoleRecord)
    requires rec.attempts == [a] && UnreportedRole(rec, id, OutCrashed, REASON, at) == Ok(rec') && StampedBy(rec, at)
    ensures StampedBy(rec', at)
  {
    assert a in rec.attempts;
    assert rec'.attempts == [rec'.attempts[0]];
  }

  lemma CloseStamped(rec: RoleRecord, a: Attempt, at: int, rec': RoleRecord)
    requires rec.attempts == [a] && a.cleanup.None? && StampedBy(rec, at)
    requires ClosesTo(rec, a, a.lease.(stop := Stopped(a.lease.stop, at)), at, rec')
    ensures StampedBy(rec', at)
  {
    assert a in rec.attempts;
    assert rec'.attempts == [rec'.attempts[0]];
  }

  /** A closing step records no time later than its own. */
  lemma EffectStamped(rec: RoleRecord, a: Attempt, role: Role, at: int, rec': RoleRecord)
    requires rec.attempts == [a] && LocalEffect(rec, RoleClosing(role, a), at) == Ok(rec') && StampedBy(rec, at)
    ensures StampedBy(rec', at)
  {
    hide StampedBy, ClosedProvisional, BindRole, ClaimStopRole, SendStopRole, DispatchRole, SubmitRole, ReconcileLeaseRole,
      ReconcileCleanupRole, ClaimCleanupRole, SendCleanupRole, CompleteCleanupRole, RecoverRole, UnreportedRole, NextCleanup, Recleaned;
    if a.cleanup.Some? {
      CleanupEffect(rec, a, a.cleanup.value, role, at, rec');
      CleanupStamped(rec, a, a.cleanup.value, at);
    } else if a.state in {Dispatching, Submitted} {
      CrashStamped(rec, a, a.id, at, rec');
    } else {
      CloseStamped(rec, a, at, rec');
    }
  }

  lemma ClosingStamped(r: Run, at: int, next: Run)
    requires Perform(r, Closing(r), at) == Ok(next) && forall role :: StampedBy(r.roles.Get(role), at)
    ensures next.updatedAt == at && forall role :: StampedBy(next.roles.Get(role), at)
  {
    hide Perform, StampedBy, RoleClosing, UnresolvedRole, LocalEffect;
    if r.condition == OffCourse && !(r.applyOutbox.state in {ApplyClaimed, ApplyReconcile} && r.applyOutbox.candidateDigest.Some?)
       && Unresolved(r).Some? && r.roles.Get(Unresolved(r).value).attempts != [] {
      var role := Unresolved(r).value;
      var rec := r.roles.Get(role);
      var a := rec.attempts[|rec.attempts| - 1];
      var rec' := Accounted(r, role, a, at, next);
      EffectStamped(rec, a, role, at, rec');
      Bound.GetWith(r.roles, role, rec');
    } else {
      ClosingRoles(r, at, next);
    }
  }

  lemma ClosingRoles(r: Run, at: int, next: Run)
    requires Perform(r, Closing(r), at) == Ok(next)
    requires Closing(r).LeaveCourse? || Closing(r).AbandonApply? || Closing(r).CancelRun?
    ensures next.roles == r.roles && next.updatedAt == at
  {
    hide ValidRun, Closing, LocalMutation, BlamingMutation, SpawnMutation, RecordReportStep, WaitMutation, RetryMutation,
      ContinueMutation, CompileStep, ClaimApplyStep, AppliedStep, ReconcileApplyStep, UnresolvedWorker;
  }

  lemma RoleStep(role: Role, a: Attempt)
    ensures var s := RoleClosing(role, a); RoleOf(s) == Some(role) && (LocalStep(s) || BlamingStep(s))
  {
  }

  /** Off course such a step changes nothing but the record. */
  lemma AccountedCopy(r: Run, s: Step, role: Role, at: int, m: Run) returns (rec': RoleRecord)
    requires (LocalStep(s) || BlamingStep(s)) && RoleOf(s) == Some(role) && r.condition == OffCourse && Mutated(r, s, at) == Ok(m)
    ensures LocalEffect(r.roles.Get(role), s, at) == Ok(rec') && m == WithRole(r, role, rec')
  {
    hide LocalEffect, BuildCandidate;
    rec' := LocalEffect(r.roles.Get(role), s, at).value;
  }

  // ---------------------------------------------------------------- no closing step adds more than this

  const CLOSING_BYTES := 402

  lemma ReasonBytes()
    ensures Quoted(REASON) == 27 && Quoted(ABSENT) == 66 && Quoted(CLAIM) == 13
  {
    hide TextBytes;
    assert TextBytes(REASON) == 25 by { PlainText(REASON); }
    AbsentBytes();
    assert TextBytes(CLAIM) == 11 by { PlainText(CLAIM); }
  }

  lemma AbsentBytes()
    ensures TextBytes(ABSENT) == 64
  {
    hide TextBytes;
    var first, rest := "Provisional planning worker was ", "observed absent before dispatch.";
    PlainText(first);
    PlainText(rest);
    TextTogether(first, rest);
    assert ABSENT == first + rest;
  }

  lemma CleanupFrames()
    ensures Frame(5, CLEANUP_KEYS) == 289 && Frame(7, RECOVERY_KEYS) == 106
  {
  }

  lemma CleanupAtMost(c: Cleanup, at: int)
    ensures CleanupGrowth(c, at) <= 234
  {
    ReasonBytes();
    CleanupFrames();
    NextInt(c.recoveryCount);
    NoText();
    hide Frame, IntBytes, TextBytes;
  }

  lemma CrashAtMost(rec: RoleRecord, a: Attempt, at: int)
    requires a.state in {Dispatching, Submitted}
    ensures CrashGrowth(rec, a, at) <= 398
  {
    ReasonBytes();
    CleanupFrames();
    NoText();
    OneDigit();
    hide Frame, TextBytes, Digits;
    assert CleanupBytes(PENDING_CLEANUP) == 323;
    hide CleanupBytes;
  }

  lemma ShortNames()
    ensures |RoleStateName(RoleFailed)| == 6 && forall s :: |RoleStateName(s)| >= 6
    ensures |AttemptName(Crashed)| == 7 && forall s :: |AttemptName(s)| >= 7
    ensures |OutcomeName(OutCrashed)| == 7 && |LeaseName(LeaseClosed)| == 6 && forall s :: |LeaseName(s)| >= 5
    ensures |ObservationName(ScopeAndPaneAbsent)| == 21 && forall s :: |ObservationName(s)| >= 4
    ensures |StopName(StopComplete)| == 8 && forall s :: |StopName(s)| >= 4
  {
  }

  lemma CloseAtMost(rec: RoleRecord, a: Attempt, at: int)
    ensures CloseGrowth(rec, a, at) <= 250
  {
    hide TextBytes, RoleStateName, AttemptName, OutcomeName, LeaseName, ObservationName, StopName;
    ReasonBytes();
    ShortNames();
  }

  lemma StampAtMost(r: Run, at: int)
    ensures StampGrowth(r, at) <= 4
  {
    hide IntBytes;
    NextInt(r.revision);
  }

  /** Whatever the run and the time. */
  lemma ClosingAtMost(r: Run, at: int)
    ensures ClosingGrowth(r, at) <= CLOSING_BYTES
  {
    hide StampGrowth, CleanupGrowth, CrashGrowth, CloseGrowth, Unresolved, TextBytes;
    ReasonBytes();
    StampAtMost(r, at);
    forall rec: RoleRecord, a: Attempt ensures RoleClosingGrowth(rec, a, at) <= 398 {
      if a.cleanup.Some? {
        CleanupAtMost(a.cleanup.value, at);
      } else if a.state in {Dispatching, Submitted} {
        CrashAtMost(rec, a, at);
      } else {
        CloseAtMost(rec, a, at);
      }
    }
  }
}
