/** Every Planning Run can still be brought to an end, and no ended run leaves a worker behind. */
module PlanningLiveness {
  import opened Wrappers
  import opened PlanningRuns
  import opened PlanningSteps
  import opened PlanningLength
  import History = PlanningHistory
  import Safety = PlanningSafety
  import Bound = PlanningBound

  const REASON := "The run is being stopped."
  const CLAIM := "stop-worker"

  function RefOf(l: SpawnLease): LeaseRef {
    LeaseRef(l.binding.leaseId, l.binding.scopeUnit, l.binding.scopeDigest)
  }

  /** The step that brings an unresolved worker closer to being accounted for. */
  function RoleClosing(role: Role, a: Attempt): Step {
    if a.cleanup.Some? then
      match a.cleanup.value.state
      case CleanupPending => ClaimCleanup(role, a.id, CLAIM)
      case CleanupClaimed => SendCleanup(role, a.id)
      case CleanupReconcile => RecoverCleanup(role, a.id, WorkerAbsent, "")
      case _ => CompleteCleanup(role, a.id)
    else if a.state in {Dispatching, Submitted} then RecordCrash(role, a.id, REASON)
    else if a.lease.stop.Some? then CompleteStop(role, a.id, RefOf(a.lease), a.lease.stop.value.claimId, REASON)
    else CloseLeaseAbsent(role, a.id, RefOf(a.lease), REASON)
  }

  function Unresolved(r: Run): Option<Role> {
    if UnresolvedRole(r.roles.po) then Some(PO)
    else if UnresolvedRole(r.roles.ba) then Some(BA)
    else if UnresolvedRole(r.roles.qa) then Some(QA)
    else if UnresolvedRole(r.roles.dev) then Some(DEV)
    else None
  }

  /** Leave the course, abandon an application in doubt, account for every worker, then cancel. */
  function Closing(r: Run): Step {
    if r.condition != OffCourse then LeaveCourse(REASON)
    else if r.applyOutbox.state in {ApplyClaimed, ApplyReconcile} && r.applyOutbox.candidateDigest.Some? then
      AbandonApply(r.applyOutbox.claimId, r.applyOutbox.candidateDigest.value, REASON)
    else match Unresolved(r)
         case Some(role) =>
           var rec := r.roles.Get(role);
           if rec.attempts != [] then RoleClosing(role, rec.attempts[|rec.attempts| - 1]) else CancelRun(true, REASON)
         case None => CancelRun(true, REASON)
  }

  /** No recorded time the closing step of this attempt has to follow is later. */
  predicate StampedBy(rec: RoleRecord, at: int) {
    forall a :: a in rec.attempts ==>
      && a.lease.claimedAt <= at
      && (a.lease.stop.Some? ==> a.lease.stop.value.claimedAt <= at && (a.lease.stop.value.sentAt.Some? ==> a.lease.stop.value.sentAt.value <= at))
      && (a.cleanup.Some? && a.cleanup.value.history != [] ==> a.cleanup.value.history[|a.cleanup.value.history| - 1].observedAt <= at)
  }

  function Max(x: int, y: int): int {
    if x < y then y else x
  }

  function LatestStamp(rec: RoleRecord, at: int): (late: int)
    requires |rec.attempts| <= 1
    ensures at <= late && StampedBy(rec, late)
    ensures forall more :: late <= more ==> StampedBy(rec, more)
  {
    if rec.attempts == [] then at
    else
      var a := rec.attempts[0];
      var lease := Max(at, a.lease.claimedAt);
      var stop := if a.lease.stop.None? then lease
                  else Max(Max(lease, a.lease.stop.value.claimedAt), if a.lease.stop.value.sentAt.Some? then a.lease.stop.value.sentAt.value else lease);
      if a.cleanup.Some? && a.cleanup.value.history != [] then Max(stop, a.cleanup.value.history[|a.cleanup.value.history| - 1].observedAt)
      else stop
  }

  /** The new record is valid and keeps what the rest of the run depends on. */
  predicate Closes(rec: RoleRecord, effect: Result<RoleRecord>, role: Role, b: RunBinding) {
    && effect.Ok? && ValidRole(effect.value, role, b) && effect.value.report == rec.report
  }

  /** Replacing the attempt keeps the record valid when the attempt is valid and fits the state. */
  lemma AttemptCloses(rec: RoleRecord, a: Attempt, role: Role, b: RunBinding, state: RoleState, a': Attempt)
    requires ValidRole(rec, role, b) && rec.attempts == [a] && a'.id == a.id && a'.inputDigest == a.inputDigest
    requires ValidAttemptBinding(a', role, b) && ValidAttemptLifecycle(a')
    requires (state == rec.state && a'.state == a.state && a'.outcome == a.outcome)
             || (state == RoleFailed && a'.state == Crashed && a'.outcome == OutCrashed)
    ensures Closes(rec, Ok(rec.(state := state, attempts := [a'])), role, b)
  {
    hide ReportFor, ValidAttemptBinding, ValidAttemptLifecycle;
    assert a in rec.attempts;
  }

  lemma CleanupCloses(rec: RoleRecord, a: Attempt, role: Role, b: RunBinding, c: Cleanup, c': Cleanup)
    requires ValidRole(rec, role, b) && rec.attempts == [a] && a.cleanup == Some(c) && ValidCleanup(c')
    requires a.state in {Finished, Crashed, AttemptReconcile}
    ensures Closes(rec, Ok(Recleaned(rec, c')), role, b)
  {
    hide ReportFor, ValidCleanup, Closes, ValidLease, WorkerMatchesLease, ExpectedLeaseBinding;
    assert a in rec.attempts;
    var a' := a.(cleanup := Some(c'));
    assert [a][0 := a'] == [a'];
    AttemptCloses(rec, a, role, b, rec.state, a');
  }

  lemma AttemptOf(rec: RoleRecord, a: Attempt, role: Role, b: RunBinding)
    requires ValidRole(rec, role, b) && rec.attempts == [a]
    ensures ValidAttemptBinding(a, role, b) && ValidAttemptLifecycle(a)
  {
    hide ValidAttemptBinding, ValidAttemptLifecycle;
    assert a in rec.attempts;
  }

  /** The stop request is complete, and not older than the lease. */
  predicate Stopped(lease: SpawnLease) {
    lease.stop.Some? ==> ValidStop(lease.stop.value) && lease.stop.value.state == StopComplete && lease.claimedAt <= lease.stop.value.claimedAt
  }

  lemma ProvisionalCloses(rec: RoleRecord, a: Attempt, role: Role, b: RunBinding, lease: SpawnLease, at: int)
    requires ValidRole(rec, role, b) && rec.attempts == [a] && a.dispatch.None? && a.cleanup.None?
    requires ValidObserved(a.lease.observed) && lease == a.lease.(stop := lease.stop) && Stopped(lease) && lease.claimedAt <= at
    ensures Closes(rec, Provisional(rec, a, lease, at), role, b)
  {
    hide ReportFor, ValidCleanup, Closes, ValidStop, ExpectedLeaseBinding, ValidRole;
    AttemptOf(rec, a, role, b);
    var closed := ClosedProvisional(rec, a, lease, REASON, at);
    assert closed.attempts == [closed.attempts[0]];
    AttemptCloses(rec, a, role, b, RoleFailed, closed.attempts[0]);
  }

  /** Closing a provisional attempt on this lease. */
  function Provisional(rec: RoleRecord, a: Attempt, lease: SpawnLease, at: int): Result<RoleRecord> {
    if rec.attempts == [] then Ok(rec) else Ok(ClosedProvisional(rec, a, lease, REASON, at))
  }

  lemma CloseLeaseCloses(rec: RoleRecord, a: Attempt, role: Role, b: RunBinding, at: int)
    requires ValidRole(rec, role, b) && RoleShape(rec) && rec.attempts == [a] && StampedBy(rec, at)
    requires a.cleanup.None? && a.state in {Spawning, AttemptReconcile} && a.lease.stop.None?
    ensures Closes(rec, CloseLeaseRole(rec, a.id, RefOf(a.lease), REASON, at), role, b)
  {
    hide Closes, ValidRole, ValidStop, ExpectedLeaseBinding, ValidPane, ValidCleanup, ValidAttemptLifecycle;
    AttemptOf(rec, a, role, b);
    ProvisionalCloses(rec, a, role, b, a.lease, at);
  }

  lemma CompleteStopCloses(rec: RoleRecord, a: Attempt, stop: StopRequest, role: Role, b: RunBinding, at: int)
    requires ValidRole(rec, role, b) && RoleShape(rec) && rec.attempts == [a] && StampedBy(rec, at)
    requires a.cleanup.None? && a.state == AttemptReconcile && a.lease.stop == Some(stop)
    ensures Closes(rec, CompleteStopRole(rec, a.id, RefOf(a.lease), stop.claimId, REASON, at), role, b)
  {
    hide Closes, ValidRole, ExpectedLeaseBinding, ValidPane, ValidCleanup;
    AttemptOf(rec, a, role, b);
    var complete := stop.(state := StopComplete, completedAt := Some(at), observation := ScopeAndPaneAbsent);
    ProvisionalCloses(rec, a, role, b, a.lease.(stop := Some(complete)), at);
  }

  lemma CrashCloses(rec: RoleRecord, a: Attempt, role: Role, b: RunBinding, at: int)
    requires ValidRole(rec, role, b) && RoleShape(rec) && rec.attempts == [a] && a.state in {Dispatching, Submitted}
    ensures Closes(rec, UnreportedRole(rec, a.id, OutCrashed, REASON, at), role, b)
  {
    hide Closes, ValidRole, ExpectedLeaseBinding, ValidObserved, ValidStop, RoleShape;
    AttemptOf(rec, a, role, b);
    var a' := FinishedAttempt(a, OutCrashed, REASON, REASON, at).(state := Crashed);
    assert [a][0 := a'] == [a'];
    AttemptCloses(rec, a, role, b, RoleFailed, a');
  }

  lemma CleanupOf(rec: RoleRecord, a: Attempt, c: Cleanup, role: Role, b: RunBinding)
    requires ValidRole(rec, role, b) && RoleShape(rec) && rec.attempts == [a] && a.cleanup == Some(c)
    ensures ValidCleanup(c) && a.state in {Finished, Crashed, AttemptReconcile}
    ensures c.state == CleanupReconcile ==> rec.state == RoleReconcile && a.state == AttemptReconcile && c.recoveryCount <= 2
  {
    hide ValidRole, ValidCleanup, ValidLease, ExpectedLeaseBinding, ValidAttemptLifecycle;
    AttemptOf(rec, a, role, b);
  }

  /** Each step on a cleanup leaves a valid record. */
  lemma CleanupStepCloses(rec: RoleRecord, a: Attempt, c: Cleanup, role: Role, b: RunBinding, at: int)
    requires ValidRole(rec, role, b) && RoleShape(rec) && rec.attempts == [a] && a.cleanup == Some(c) && StampedBy(rec, at)
    ensures c.state == CleanupPending ==> Closes(rec, ClaimCleanupRole(rec, a.id, CLAIM, at), role, b)
    ensures c.state == CleanupClaimed ==> Closes(rec, SendCleanupRole(rec, a.id, at), role, b)
    ensures c.state == CleanupSent ==> Closes(rec, CompleteCleanupRole(rec, a.id, at), role, b)
    ensures c.state == CleanupReconcile ==> Closes(rec, RecoverRole(rec, a.id, WorkerAbsent, "", at), role, b)
  {
    hide Closes, ValidRole, RoleShape;
    CleanupOf(rec, a, c, role, b);
    match c.state {
      case CleanupPending => CleanupCloses(rec, a, role, b, c, c.(state := CleanupClaimed, claimId := CLAIM, claimedAt := Some(at)));
      case CleanupClaimed => CleanupCloses(rec, a, role, b, c, c.(state := CleanupSent, sentAt := Some(at)));
      case CleanupSent => CleanupCloses(rec, a, role, b, c, c.(state := CleanupComplete, completedAt := Some(at)));
      case CleanupReconcile =>
        RecoveredValid(c, at);
        CleanupCloses(rec, a, role, b, c, Recovered(c, WorkerAbsent, "", at));
      case CleanupComplete =>
    }
  }

  predicate HistoryBy(c: Cleanup, at: int) {
    c.history != [] ==> c.history[|c.history| - 1].observedAt <= at
  }

  lemma RecoveredValid(c: Cleanup, at: int)
    requires ValidCleanup(c) && c.recoveryCount <= 2 && c.state == CleanupReconcile && HistoryBy(c, at)
    ensures ValidCleanup(Recovered(c, WorkerAbsent, "", at))
  {
  }

  /** What the steps on a cleanup, and a crash, do to the record. */
  lemma EffectOf(rec: RoleRecord, s: Step, at: int)
    ensures s.ClaimCleanup? ==> LocalEffect(rec, s, at) == ClaimCleanupRole(rec, s.attemptId, s.claimId, at)
    ensures s.SendCleanup? ==> LocalEffect(rec, s, at) == SendCleanupRole(rec, s.attemptId, at)
    ensures s.RecoverCleanup? ==> LocalEffect(rec, s, at) == RecoverRole(rec, s.attemptId, s.outcome, s.claimId, at)
    ensures s.CompleteCleanup? ==> LocalEffect(rec, s, at) == CompleteCleanupRole(rec, s.attemptId, at)
    ensures s.RequireCleanupReconcile? ==> LocalEffect(rec, s, at) == ReconcileCleanupRole(rec, s.attemptId, s.error)
    ensures s.RecordCrash? ==> LocalEffect(rec, s, at) == UnreportedRole(rec, s.attemptId, OutCrashed, s.reason, at)
  {
    hide ClaimCleanupRole, SendCleanupRole, CompleteCleanupRole, RecoverRole, ReconcileCleanupRole, UnreportedRole;
  }

  lemma RoleClosingCloses(rec: RoleRecord, role: Role, b: RunBinding, at: int) returns (a: Attempt)
    requires ValidRole(rec, role, b) && RoleShape(rec) && UnresolvedRole(rec) && StampedBy(rec, at)
    ensures rec.attempts == [a]
    ensures var s := RoleClosing(role, a);
            RoleOf(s) == Some(role) && (LocalStep(s) || BlamingStep(s)) && Closes(rec, LocalEffect(rec, s, at), role, b)
  {
    hide ValidRole, Closes, StampedBy, UnresolvedRole, BindRole, ClaimStopRole, SendStopRole, DispatchRole,
      SubmitRole, ClaimCleanupRole, SendCleanupRole, CompleteCleanupRole, RecoverRole, ReconcileLeaseRole,
      CloseLeaseRole, CompleteStopRole, UnreportedRole, ReconcileCleanupRole, RoleShape;
    a := UnresolvedShape(rec);
    if a.cleanup.Some? {
      CleanupStepCloses(rec, a, a.cleanup.value, role, b, at);
    } else if a.state in {Dispatching, Submitted} {
      CrashCloses(rec, a, role, b, at);
    } else if a.lease.stop.Some? {
      CompleteStopCloses(rec, a, a.lease.stop.value, role, b, at);
    } else {
      CloseLeaseCloses(rec, a, role, b, at);
    }
  }

  /** What is unresolved about a reachable role record. */
  lemma UnresolvedShape(rec: RoleRecord) returns (a: Attempt)
    requires RoleShape(rec) && UnresolvedRole(rec)
    ensures rec.attempts == [a]
    ensures match a.cleanup
            case Some(c) => c.state != CleanupComplete
            case None => a.state in {Spawning, Dispatching, Submitted} || a.lease.state == LeaseReconcile
    ensures a.cleanup.None? && a.state !in {Dispatching, Submitted} ==>
              a.state in {Spawning, AttemptReconcile} && (a.lease.stop.Some? ==> a.state == AttemptReconcile)
  {
    a := rec.attempts[0];
  }

  // ---------------------------------------------------------------- the run as a whole

  lemma GetValid(r: Run, role: Role)
    requires ValidRun(r)
    ensures ValidRole(r.roles.Get(role), role, BindingOf(r)) && |r.roles.Get(role).attempts| <= 1
  {
    hide ValidRun, ValidAttemptBinding, ValidAttemptLifecycle;
    Safety.ValidGet(r, role);
    hide ValidRun;
  }

  /** The latest time recorded in the run that its closing has to follow. */
  function Latest(r: Run): int
    requires |r.roles.po.attempts| <= 1 && |r.roles.ba.attempts| <= 1 && |r.roles.qa.attempts| <= 1 && |r.roles.dev.attempts| <= 1
  {
    LatestStamp(r.roles.dev, LatestStamp(r.roles.qa, LatestStamp(r.roles.ba, LatestStamp(r.roles.po, r.updatedAt))))
  }

  /** Replacing the record of an unresolved role by a valid one that kept its report. */
  lemma RoleClosed(r: Run, role: Role, rec: RoleRecord, at: int)
    requires ValidRun(r) && !Terminal(r) && r.condition == OffCourse && r.updatedAt <= at
    requires ValidRole(rec, role, BindingOf(r)) && rec.report == r.roles.Get(role).report
    requires !CompletedAndCleaned(r.roles.Get(role)) && r.roles.Get(role).state != Pending
    ensures ValidRun(Stamped(WithRole(r, role, rec), at))
  {
    hide ValidSourcePlan, ValidRole, BuildCandidate, CompletedAndCleaned, ValidReceipts;
    var next := Stamped(WithRole(r, role, rec), at);
    assert ValidRoles(next.roles, BindingOf(next));
    assert r.candidate.None?;
    LaterReceipts(r.receipts, r.revision);
  }

  lemma LaterReceipts(receipts: seq<Receipt>, revision: int)
    requires ValidReceipts(receipts, revision)
    ensures ValidReceipts(receipts, revision + 1)
  {
    hide CountKind;
  }

  lemma RoleClosingAccepted(r: Run, role: Role, at: int) returns (a: Attempt)
    requires ValidRun(r) && Shaped(r) && !Terminal(r) && r.condition == OffCourse && r.updatedAt <= at
    requires UnresolvedRole(r.roles.Get(role)) && StampedBy(r.roles.Get(role), at)
    ensures r.roles.Get(role).attempts == [a] && Perform(r, RoleClosing(role, a), at).Ok?
  {
    hide ValidRun, ValidRole, RoleShape, UnresolvedRole, StampedBy, LocalEffect, CompletedAndCleaned, RoleClosing,
      BuildCandidate;
    var rec := r.roles.Get(role);
    GetValid(r, role);
    a := RoleClosingCloses(rec, role, BindingOf(r), at);
    UnresolvedNotCleaned(rec);
    var s := RoleClosing(role, a);
    var rec' := LocalEffect(rec, s, at).value;
    RoleClosed(r, role, rec', at);
    assert Mutated(r, s, at) == Ok(WithRole(r, role, rec'));
  }

  lemma UnresolvedNotCleaned(rec: RoleRecord)
    requires RoleShape(rec) && UnresolvedRole(rec)
    ensures !CompletedAndCleaned(rec) && rec.state != Pending
  {
  }

  /** The candidate depends on the roles and the identity of the run alone. */
  lemma CandidateStable(r: Run, next: Run)
    requires next.roles == r.roles && BindingOf(next) == BindingOf(r) && next.sourcePlan == r.sourcePlan
    ensures forall c :: ValidCandidate(c, next) <==> ValidCandidate(c, r)
  {
    hide PatchFor, PlanPatch, CandidateChallenges, PlanningRuns.Phases.UpdateDefinition,
      PlanningRuns.DeliveryPlans.Complete;
  }

  lemma LeftValid(r: Run, reason: string, at: int)
    requires ValidRun(r) && !Terminal(r) && r.updatedAt <= at && reason != ""
    ensures ValidRun(Stamped(r.(condition := OffCourse, blocker := reason), at))
  {
    hide ValidSourcePlan, ValidRoles, ValidCandidate, CompletedAndCleaned, ValidReceipts;
    CandidateStable(r, Stamped(r.(condition := OffCourse, blocker := reason), at));
    LaterReceipts(r.receipts, r.revision);
  }

  /** Leaving the course is accepted in every run that has not ended and has not left it yet. */
  lemma LeaveAccepted(r: Run, reason: string, at: int)
    requires ValidRun(r)
    ensures Perform(r, LeaveCourse(reason), at).Ok? <==> r.updatedAt <= at && reason != "" && !Terminal(r) && r.condition != OffCourse
  {
    hide LocalMutation, BlamingMutation, SpawnMutation, RecordReportStep, WaitMutation, RetryMutation, ContinueMutation, CompileStep,
      ClaimApplyStep, AppliedStep, ReconcileApplyStep, AbandonStep, CancelStep;
    hide ValidRun;
    assert Mutated(r, LeaveCourse(reason), at) == OffCourseStep(r, reason);
    if r.updatedAt <= at && reason != "" && !Terminal(r) {
      LeftValid(r, reason, at);
    }
  }

  function AbandonedOutbox(o: ApplyOutbox, at: int): ApplyOutbox {
    o.(state := Abandoned, receiptAbsent := true, error := REASON, updatedAt := at)
  }

  lemma AbandonedValid(r: Run, at: int)
    requires ValidRun(r) && r.phase == PhaseReview && r.updatedAt <= at
    requires r.applyOutbox.state in {ApplyClaimed, ApplyReconcile} && History.AppliedExactly(r) && r.condition == OffCourse
    ensures r.applyOutbox.candidateDigest.Some?
    ensures ValidRun(Stamped(r.(applyOutbox := AbandonedOutbox(r.applyOutbox, at)), at))
  {
    hide ValidSourcePlan, ValidRoles, ValidCandidate, CompletedAndCleaned, ValidReceipts;
    CandidateStable(r, Stamped(r.(applyOutbox := AbandonedOutbox(r.applyOutbox, at)), at));
    LaterReceipts(r.receipts, r.revision);
  }

  lemma OutboxPhase(r: Run)
    requires ValidRun(r)
    ensures r.applyOutbox.state == Held || r.phase in {PhaseReview, PhaseApplied, PhaseClosed}
  {
    hide ValidRun;
    History.ValidPhase(r);
    hide ValidRun, CompletedAndCleaned;
  }

  lemma AbandonAccepted(r: Run, at: int)
    requires ValidRun(r) && !Terminal(r) && r.condition == OffCourse && r.updatedAt <= at
    requires r.applyOutbox.state in {ApplyClaimed, ApplyReconcile} && History.AppliedExactly(r)
    ensures r.applyOutbox.candidateDigest.Some? && Closing(r).AbandonApply? && Perform(r, Closing(r), at).Ok?
  {
    hide LocalMutation, BlamingMutation, SpawnMutation, RecordReportStep, WaitMutation, RetryMutation, ContinueMutation, CompileStep,
      ClaimApplyStep, AppliedStep, ReconcileApplyStep, OffCourseStep, CancelStep;
    hide ValidRun, RoleClosing, Unresolved, History.AppliedExactly;
    OutboxPhase(r);
    AbandonedValid(r, at);
    assert Mutated(r, Closing(r), at) == AbandonStep(r, r.applyOutbox.claimId, r.applyOutbox.candidateDigest.value, REASON, at);
  }

  lemma CanceledValid(r: Run, reason: string, at: int)
    requires ValidRun(r) && !Terminal(r) && r.updatedAt <= at && reason != ""
    requires r.applyOutbox.state !in {ApplyClaimed, ApplyReconcile} && History.AppliedExactly(r)
    ensures ValidRun(Stamped(r.(phase := PhaseClosed, condition := RunCanceled, blocker := reason), at))
  {
    hide ValidSourcePlan, ValidRoles, ValidCandidate, CompletedAndCleaned, ValidReceipts;
    CandidateStable(r, Stamped(r.(phase := PhaseClosed, condition := RunCanceled, blocker := reason), at));
    LaterReceipts(r.receipts, r.revision);
  }

  /** Cancelling is accepted in every run that has not ended, when confirmed and no worker is unresolved. */
  lemma CancelAccepted(r: Run, confirmed: bool, reason: string, at: int)
    requires ValidRun(r) && History.AppliedExactly(r)
    ensures Perform(r, CancelRun(confirmed, reason), at).Ok? <==>
              r.updatedAt <= at && confirmed && reason != "" && !Terminal(r) && !UnresolvedWorker(r)
  {
    hide LocalMutation, BlamingMutation, SpawnMutation, RecordReportStep, WaitMutation, RetryMutation, ContinueMutation, CompileStep,
      ClaimApplyStep, AppliedStep, ReconcileApplyStep, AbandonStep, OffCourseStep;
    hide ValidRun, UnresolvedWorker, History.AppliedExactly;
    assert Mutated(r, CancelRun(confirmed, reason), at) == CancelStep(r, confirmed, reason);
    if r.updatedAt <= at && confirmed && reason != "" && !Terminal(r) && !UnresolvedWorker(r) {
      Resolved(r);
      CanceledValid(r, reason, at);
    }
  }

  lemma Resolved(r: Run)
    requires !UnresolvedWorker(r)
    ensures r.applyOutbox.state !in {ApplyClaimed, ApplyReconcile}
  {
    hide UnresolvedRole;
  }

  /** The closing step of a reachable run that has not ended is always accepted. */
  lemma ClosingAccepted(r: Run, at: int)
    requires ValidRun(r) && Shaped(r) && History.AppliedExactly(r) && !Terminal(r)
    requires r.updatedAt <= at && forall role :: StampedBy(r.roles.Get(role), at)
    ensures Perform(r, Closing(r), at).Ok?
  {
    hide ValidRun, Perform, StampedBy, UnresolvedRole, RoleClosing, Shaped, ValidRole;
    if r.condition != OffCourse {
      LeaveAccepted(r, REASON, at);
    } else if r.applyOutbox.state in {ApplyClaimed, ApplyReconcile} {
      AbandonAccepted(r, at);
    } else if Unresolved(r).Some? {
      var role := Unresolved(r).value;
      GetValid(r, role);
      var _ := RoleClosingAccepted(r, role, at);
    } else {
      CancelAccepted(r, true, REASON, at);
    }
  }

  /** From every reachable run that has not ended, accepted steps lead to the cancelled state; each
      uses up potential, so there are at most as many as the run has left. */
  lemma {:induction false} CanAlwaysBeStopped(o: Origin, events: seq<Event>, r: Run) returns (more: seq<Event>, stopped: Run)
    requires Reaches(o, events, r) && !Terminal(r)
    ensures Reaches(o, events + more, stopped) && stopped.phase == PhaseClosed && stopped.condition == RunCanceled
    ensures 0 < |more| <= Potential(r)
    decreases Potential(r)
  {
    hide Reaches, Perform, ValidRun, Potential, Shaped, StampedBy, Closing, Latest;
    var e, next := CloseStep(o, events, r);
    var step := [e];
    if Terminal(next) {
      more, stopped := step, next;
    } else {
      var rest;
      rest, stopped := CanAlwaysBeStopped(o, events + step, next);
      more := step + rest;
      assert events + step + rest == events + more;
    }
  }

  /** One closing step: it is accepted, uses up potential, and ends the run only by cancelling it. */
  lemma CloseStep(o: Origin, events: seq<Event>, r: Run) returns (e: Event, next: Run)
    requires Reaches(o, events, r) && !Terminal(r)
    ensures Reaches(o, events + [e], next) && 0 <= Potential(next) < Potential(r)
    ensures e.step == Closing(r) && Perform(r, e.step, e.at) == Ok(next)
    ensures Terminal(next) ==> next.phase == PhaseClosed && next.condition == RunCanceled
  {
    hide Reaches, Perform, ValidRun, Potential, Shaped, StampedBy, Closing, Latest, History.InputsFrozen, Safety.DispatchFirst,
      History.AppliedExactly, Bound.Used, ValidRole;
    Bound.RunLength(o, events, r);
    Safety.RunSafe(o, events, r);
    GetValid(r, PO);
    GetValid(r, BA);
    GetValid(r, QA);
    GetValid(r, DEV);
    var at := Latest(r);
    LatestCovers(r);
    ClosingAccepted(r, at);
    e := Event(Closing(r), at);
    next := Perform(r, e.step, e.at).value;
    Bound.PerformUses(r, e.step, e.at, next);
    Extend(o, events, r, e, next);
    Bound.RunLength(o, events + [e], next);
    if Terminal(next) {
      ClosingEnds(r, e.at, next);
    }
    UsedPotential(r, next);
  }

  lemma UsedPotential(r: Run, next: Run)
    requires Bound.Used(r, next)
    ensures Potential(next) < Potential(r)
  {
    hide Potential, Shaped;
  }

  lemma LatestCovers(r: Run)
    requires |r.roles.po.attempts| <= 1 && |r.roles.ba.attempts| <= 1 && |r.roles.qa.attempts| <= 1 && |r.roles.dev.attempts| <= 1
    ensures r.updatedAt <= Latest(r) && forall role :: StampedBy(r.roles.Get(role), Latest(r))
  {
    hide StampedBy, LatestStamp;
  }

  lemma Extend(o: Origin, events: seq<Event>, r: Run, e: Event, next: Run)
    requires Reaches(o, events, r) && Perform(r, e.step, e.at) == Ok(next)
    ensures Reaches(o, events + [e], next)
  {
    hide Perform, CreateRun;
    assert (events + [e])[..|events|] == events;
  }

  lemma ClosingEnds(r: Run, at: int, next: Run)
    requires Perform(r, Closing(r), at) == Ok(next) && !Terminal(r) && Terminal(next)
    ensures next.phase == PhaseClosed && next.condition == RunCanceled
  {
    hide ValidRun, LocalEffect, UnresolvedRole, CompletedAndCleaned, LocalMutation, BlamingMutation, BuildCandidate,
      SpawnMutation;
    if LocalStep(Closing(r)) {
      LocalStays(r, Closing(r), at, Mutated(r, Closing(r), at).value);
    } else if BlamingStep(Closing(r)) {
      BlamingStays(r, Closing(r), at, Mutated(r, Closing(r), at).value);
    }
  }

  lemma LocalStays(r: Run, s: Step, at: int, m: Run)
    requires LocalStep(s) && LocalMutation(r, s, at) == Ok(m) && !Terminal(r)
    ensures !Terminal(m)
  {
    hide LocalEffect, CompletedAndCleaned;
  }

  lemma BlamingStays(r: Run, s: Step, at: int, m: Run)
    requires BlamingStep(s) && BlamingMutation(r, s, at) == Ok(m) && !Terminal(r)
    ensures !Terminal(m)
  {
    hide LocalEffect, BlamedCondition, BlameReason;
  }

  // ---------------------------------------------------------------- no worker left behind

  /** The worker of the role is known to be gone. */
  predicate Accounted(rec: RoleRecord) {
    forall a :: a in rec.attempts ==> a.lease.state == LeaseClosed || (a.cleanup.Some? && a.cleanup.value.state == CleanupComplete)
  }

  lemma SettledAccounted(rec: RoleRecord)
    requires RoleShape(rec) && RoleBounded(rec) && (Settled(rec) || CompletedAndCleaned(rec))
    ensures Accounted(rec)
  {
  }

  /** Every reachable closed or applied run has accounted for every worker it started. */
  lemma NoWorkerLeftBehind(o: Origin, events: seq<Event>, r: Run, role: Role)
    requires Reaches(o, events, r) && Terminal(r)
    ensures Accounted(r.roles.Get(role))
  {
    hide Reaches, ValidRun, Potential, Settled, CompletedAndCleaned, Accounted, RoleBounded, RoleShape,
      WaitsForRole, PhaseLifecycle, BuildCandidate;
    Bound.RunLength(o, events, r);
    ValidRunBounded(r);
    if r.phase == PhaseApplied {
      var _ := Safety.AppliedRun(o, events, r);
    }
    Bound.BoundedGet(r, role);
    SettledAccounted(r.roles.Get(role));
  }
}
