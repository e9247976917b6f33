/** A Planning Run in review, near its size limit. */
module PlanningReview {
  import opened Wrappers
  import opened JsonBytes
  import opened PlanningRuns
  import opened PlanningSteps
  import opened PlanningSizes
  import opened PlanningGrowth
  import opened PlanningLimits
  import Safety = PlanningSafety
  import Length = PlanningLength
  import Liveness = PlanningLiveness

  /** Reviewed, and not yet being applied. */
  predicate InReview(r: Run) {
    r.phase == PhaseReview && r.condition == Active && r.applyOutbox.state == Held
  }

  /** All workers of a run in review are gone. */
  lemma ReviewRoles(r: Run, role: Role)
    requires ValidRun(r) && r.phase == PhaseReview
    ensures CompletedAndCleaned(r.roles.Get(role)) && ValidRole(r.roles.Get(role), role, BindingOf(r))
  {
    hide ValidRole, ValidCandidate, ValidSourcePlan;
    Safety.ValidGet(r, role);
    hide ValidSourcePlan, ValidRoles, ValidRole, ValidCandidate, CompletedAndCleaned, ValidReceipts, ValidOutbox,
      ValidSynthesisBlocker;
  }

  predicate WorkerGone(rec: RoleRecord) {
    && |rec.attempts| == 1 && rec.state == Completed && rec.attempts[0].state == Finished && rec.attempts[0].lease.state == LeaseAdopted
    && rec.attempts[0].cleanup.Some? && rec.attempts[0].cleanup.value.state == CleanupComplete
  }

  lemma CleanedAttempt(rec: RoleRecord, role: Role, b: RunBinding)
    requires CompletedAndCleaned(rec) && ValidRole(rec, role, b)
    ensures WorkerGone(rec)
  {
    hide ValidAttemptBinding, WorkerMatchesLease;
    assert rec.attempts[0] in rec.attempts;
  }

  lemma GoneResolved(rec: RoleRecord)
    requires WorkerGone(rec)
    ensures !UnresolvedRole(rec)
    ensures forall id, claim, outcome, at :: ContinueCleanupRole(rec, id, claim, outcome, at).Err?
  {
  }

  lemma GoneLocal(rec: RoleRecord, s: Step, at: int)
    requires WorkerGone(rec) && LocalStep(s) && !s.RecoverCleanup?
    ensures LocalEffect(rec, s, at).Err?
  {
    hide ReconcileLeaseRole, CloseLeaseRole, CompleteStopRole, UnreportedRole, ReconcileCleanupRole, RecoverRole;
  }

  lemma GoneBlaming(rec: RoleRecord, s: Step, at: int)
    requires WorkerGone(rec) && BlamingStep(s)
    ensures LocalEffect(rec, s, at).Err?
  {
    hide BindRole, ClaimStopRole, SendStopRole, DispatchRole, SubmitRole, ClaimCleanupRole, SendCleanupRole,
      CompleteCleanupRole, RecoverRole;
  }

  lemma ReviewResolved(r: Run)
    requires ValidRun(r) && InReview(r)
    ensures !UnresolvedWorker(r)
  {
    hide ValidRun, CompletedAndCleaned, ValidRole, UnresolvedRole, ContinueCleanupRole;
    forall role ensures !UnresolvedRole(r.roles.Get(role)) {
      ReviewRoles(r, role);
      CleanedAttempt(r.roles.Get(role), role, BindingOf(r));
      GoneResolved(r.roles.Get(role));
    }
    assert r.roles.Get(PO) == r.roles.po && r.roles.Get(BA) == r.roles.ba && r.roles.Get(QA) == r.roles.qa
      && r.roles.Get(DEV) == r.roles.dev;
  }

  lemma BlamingOver(r: Run, s: Step, role: Role, at: int)
    requires BlamingStep(s) && RoleOf(s) == Some(role) && LocalEffect(r.roles.Get(role), s, at).Err?
    ensures Mutated(r, s, at).Err?
  {
    hide LocalEffect, LocalMutation, Blame, SpawnMutation, RecordReportStep, WaitMutation, RetryMutation,
      ContinueMutation, CompileStep, ClaimApplyStep, AppliedStep, ReconcileApplyStep, AbandonStep, OffCourseStep,
      CancelStep;
  }

  lemma LocalOver(r: Run, s: Step, role: Role, at: int)
    requires LocalStep(s) && RoleOf(s) == Some(role) && r.condition == Active
    requires !s.RecoverCleanup? ==> LocalEffect(r.roles.Get(role), s, at).Err?
    ensures Mutated(r, s, at).Err?
  {
    hide LocalEffect, BlamingMutation, SpawnMutation, RecordReportStep, WaitMutation, RetryMutation, ContinueMutation,
      CompileStep, ClaimApplyStep, AppliedStep, ReconcileApplyStep, AbandonStep, OffCourseStep, CancelStep;
  }

  lemma RoleStepsOver(r: Run, s: Step, at: int)
    requires ValidRun(r) && InReview(r) && (LocalStep(s) || BlamingStep(s))
    ensures Mutated(r, s, at).Err?
  {
    hide ValidRun, CompletedAndCleaned, ValidRole, LocalEffect, WorkerGone, Mutated;
    ReviewRoles(r, s.role);
    CleanedAttempt(r.roles.Get(s.role), s.role, BindingOf(r));
    if BlamingStep(s) {
      GoneBlaming(r.roles.Get(s.role), s, at);
      BlamingOver(r, s, s.role, at);
    } else {
      if !s.RecoverCleanup? {
        GoneLocal(r.roles.Get(s.role), s, at);
      }
      LocalOver(r, s, s.role, at);
    }
  }

  /** In review a run can only be applied, leave the course, or be cancelled. */
  lemma ReviewSteps(r: Run, s: Step, at: int)
    requires ValidRun(r) && InReview(r) && Mutated(r, s, at).Ok?
    ensures s.ClaimApply? || s.LeaveCourse? || s.CancelRun?
  {
    hide ValidRun, CompletedAndCleaned, ValidRole, LocalMutation, BlamingMutation, CancelStep, OffCourseStep,
      ClaimApplyStep, BuildCandidate, SpawnRole, ContinueCleanupRole, RoleInputDigest, ReceiptAllowed, TrialSynthesis;
    if LocalStep(s) || BlamingStep(s) {
      RoleStepsOver(r, s, at);
    } else if s.ContinueCleanup? || s.RecordReport? {
      ReviewRoles(r, s.role);
      CleanedAttempt(r.roles.Get(s.role), s.role, BindingOf(r));
      GoneResolved(r.roles.Get(s.role));
    }
  }

  // ---------------------------------------------------------------- what each of them adds

  function ClaimGrowth(r: Run, claimId: string, at: int): int {
    Name(ApplyName(ApplyClaimed)) - Name(ApplyName(r.applyOutbox.state)) + DIGEST - (if r.applyOutbox.candidateDigest.Some? then DIGEST else EMPTY_TEXT)
    + Quoted(claimId) - Quoted(r.applyOutbox.claimId) + TimeBytes(at) - OptionalTime(r.applyOutbox.claimedAt)
    + TimeBytes(at) - TimeBytes(r.applyOutbox.updatedAt)
  }

  lemma ClaimApplyBytes(m: Measures, r: Run, claimId: string, digest: CandidateDigest, at: int, next: Run)
    requires ValidRun(r) && InReview(r) && Mutated(r, ClaimApply(claimId, digest), at) == Ok(next)
    ensures claimId != "" && RunBytes(m, next) == RunBytes(m, r) + ClaimGrowth(r, claimId, at) && SameIdentity(r, next)
            && next.updatedAt == r.updatedAt
  {
    hide ValidRun, LocalMutation, BlamingMutation, SpawnMutation, RecordReportStep, WaitMutation, RetryMutation,
      ContinueMutation, CompileStep, AppliedStep, ReconcileApplyStep, AbandonStep, OffCourseStep, CancelStep;
    hide RunBytes, Quoted, TimeBytes;
    assert Mutated(r, ClaimApply(claimId, digest), at) == ClaimApplyStep(r, claimId, digest, at);
    HeldOutbox(r);
    OutboxReplaced(m, r, next.applyOutbox);
    assert Quoted("") == EMPTY_TEXT by { NoText(); }
  }

  lemma HeldOutbox(r: Run)
    requires ValidRun(r) && r.applyOutbox.state == Held
    ensures var o := r.applyOutbox;
            && o.candidateDigest.None? && o.claimId == "" && o.claimedAt.None? && o.appliedPlanRevision.None? && o.appliedPlanDigest.None?
            && o.appliedAt.None? && !o.receiptAbsent && o.error == ""
  {
    hide ValidSourcePlan, ValidRoles, ValidCandidate, ValidReceipts, PhaseLifecycle, ConditionLifecycle,
      ValidSynthesisBlocker;
  }

  lemma OutboxReplaced(m: Measures, r: Run, o: ApplyOutbox)
    ensures RunBytes(m, r.(applyOutbox := o)) == RunBytes(m, r) + OutboxBytes(o) - OutboxBytes(r.applyOutbox)
  {
    hide FixedBytes, TableBytes, CandidateBytes, BlockerBytes, ReceiptsSum, IntBytes, TimeBytes, Quoted, ListFrame,
      OutboxBytes, PhaseName, ConditionName;
    FixedKept(r, r.(applyOutbox := o));
  }

  lemma SomeText(s: string)
    requires s != ""
    ensures Quoted(s) >= 3
  {
  }

  lemma LaterTime(early: int, late: int)
    requires early <= late
    ensures TimeBytes(early) == 26 ==> TimeBytes(late) >= 26
    ensures TimeBytes(late) >= TimeBytes(early) - 3
  {
  }

  lemma InReviewFacts(r: Run)
    requires ValidRun(r) && InReview(r)
    ensures r.blocker == "" && r.revision >= 1
  {
    hide ValidSourcePlan, ValidRoles, ValidCandidate, ValidReceipts, PhaseLifecycle, ValidOutbox,
      ValidSynthesisBlocker;
  }

  /** Any step in review adds at least three bytes and what the next revision takes. */
  lemma ReviewGrows(m: Measures, r: Run, s: Step, at: int, next: Run)
    requires Perform(r, s, at) == Ok(next) && InReview(r) && TimeBytes(r.updatedAt) == 26
    ensures RunBytes(m, next) >= RunBytes(m, r) + 3 + IntBytes(r.revision + 1) - IntBytes(r.revision)
  {
    hide ValidRun, Perform, Mutated, RunBytes, TextBytes, IntBytes, TimeBytes, InReview;
    var changed := ValidBefore(r, s, at, next);
    assert r.updatedAt <= at by { NotEarlier(r, s, at); }
    LaterTime(r.updatedAt, at);
    ReviewSteps(r, s, at);
    InReviewFacts(r);
    assert Quoted("") == EMPTY_TEXT by { NoText(); }
    match s {
      case ClaimApply(claimId, digest) =>
        ClaimApplyBytes(m, r, claimId, digest, at, changed);
        StampedBytes(m, r, changed, at);
        ClaimedGrowth(r, claimId, at);
      case LeaveCourse(reason) =>
        LeaveBytes(m, r, reason, at, next);
        LeftReason(r, reason, at);
        SomeText(reason);
        assert LeaveGrowth(r, reason) >= 5 by { ReviewNames(r); }
      case CancelRun(confirmed, reason) =>
        CancelBytes(m, r, confirmed, reason, at, next);
        CanceledReason(r, confirmed, reason, at);
        SomeText(reason);
        assert CancelGrowth(r, reason) >= 3 by { ReviewNames(r); }
      case _ =>
    }
  }

  lemma NotEarlier(r: Run, s: Step, at: int)
    requires Perform(r, s, at).Ok?
    ensures r.updatedAt <= at
  {
    hide ValidRun, Mutated;
  }

  lemma ReviewNames(r: Run)
    requires InReview(r)
    ensures Name(PhaseName(r.phase)) == Name(PhaseName(PhaseClosed)) == 8 && Name(ConditionName(r.condition)) == 8
    ensures Name(ConditionName(OffCourse)) == 12 && Name(ConditionName(RunCanceled)) == 10
  {
  }

  lemma ClaimedGrowth(r: Run, claimId: string, at: int)
    requires ValidRun(r) && InReview(r) && claimId != ""
    ensures ClaimGrowth(r, claimId, at) >= 64
  {
    hide ValidRun, TextBytes;
    HeldOutbox(r);
    SomeText(claimId);
    assert Quoted("") == EMPTY_TEXT by { NoText(); }
  }

  lemma LeftReason(r: Run, reason: string, at: int)
    requires Perform(r, LeaveCourse(reason), at).Ok? && ValidRun(r)
    ensures reason != ""
  {
    hide Perform, ValidRun;
    Liveness.LeaveAccepted(r, reason, at);
  }

  lemma CanceledReason(r: Run, confirmed: bool, reason: string, at: int)
    requires Perform(r, CancelRun(confirmed, reason), at).Ok?
    ensures reason != ""
  {
    hide ValidRun, UnresolvedWorker, LocalEffect, BuildCandidate, SpawnMutation;
    assert Mutated(r, CancelRun(confirmed, reason), at) == CancelStep(r, confirmed, reason);
  }

  /** Exactly when a run in review accepts no step at all any more: it then can neither be applied nor
      leave the course nor be cancelled, at any time and for any reason given. */
  lemma StuckInReview(m: Measures, o: Origin, events: seq<Event>, r: Run)
    requires ReachesWithin(m, o, events, r) && InReview(r) && TimeBytes(r.updatedAt) == 26
    ensures (forall s, at :: PerformWithin(m, r, s, at).Err?) <==>
              RunBytes(m, r) + 3 + IntBytes(r.revision + 1) - IntBytes(r.revision) > MAX_RUN_BYTES
  {
    hide ReachesWithin, Reaches, ValidRun, Length.Shaped, PerformWithin, RunBytes, IntBytes, TimeBytes, InReview,
      Liveness.History.AppliedExactly;
    ReachedFacts(m, o, events, r);
    if RunBytes(m, r) + 3 + IntBytes(r.revision + 1) - IntBytes(r.revision) > MAX_RUN_BYTES {
      forall s, at ensures PerformWithin(m, r, s, at).Err? {
        NoRoom(m, r, s, at);
      }
    } else {
      InReviewFacts(r);
      ReviewResolved(r);
      ReviewNames(r);
      assert Quoted("") == 2 && Quoted("x") == 3;
      CancelWithin(m, o, events, r, true, "x", r.updatedAt);
      assert !Terminal(r) by { NotTerminal(r); }
      assert PerformWithin(m, r, CancelRun(true, "x"), r.updatedAt).Ok?;
    }
  }

  lemma NotTerminal(r: Run)
    requires InReview(r)
    ensures !Terminal(r)
  {
  }

  lemma NoRoom(m: Measures, r: Run, s: Step, at: int)
    requires ValidRun(r) && InReview(r) && TimeBytes(r.updatedAt) == 26
    requires RunBytes(m, r) + 3 + IntBytes(r.revision + 1) - IntBytes(r.revision) > MAX_RUN_BYTES
    ensures PerformWithin(m, r, s, at).Err?
  {
    hide ValidRun, Perform, RunBytes, IntBytes, TimeBytes, InReview, SizesRight;
    if Perform(r, s, at).Ok? {
      ReviewGrows(m, r, s, at, Perform(r, s, at).value);
    }
  }
}
