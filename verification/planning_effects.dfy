/** What each step of a Planning Run changes, field by field: who sets it, and to what. */
module PlanningEffects {
  import opened Wrappers
  import opened PlanningRuns
  import opened PlanningSteps
  import Calls = PlanningCalls
  import Tables = PlanningTables

  // ---------------------------------------------------------------- an attempt

  /** The provisional worker is gone. */
  predicate Closes(s: Step) {
    s.CloseLeaseAbsent? || s.CompleteStop?
  }

  /** The attempt ends without a report. */
  predicate GivesUp(s: Step) {
    s.RequireInput? || s.RecordCrash? || s.RequireRoleReconcile?
  }

  predicate Ends(s: Step) {
    Closes(s) || GivesUp(s) || s.RequireLeaseReconcile?
  }

  function AttemptStateAfter(state: AttemptState, s: Step): AttemptState {
    if s.ClaimDispatch? then Dispatching
    else if s.MarkDispatched? then Submitted
    else if s.RequireInput? then Finished
    else if s.RecordCrash? || Closes(s) then Crashed
    else if s.RequireLeaseReconcile? || s.RequireRoleReconcile? || s.RequireCleanupReconcile? then AttemptReconcile
    else state
  }

  function RoleStateAfter(state: RoleState, s: Step): RoleState {
    if s.ClaimDispatch? then DispatchClaimed
    else if s.MarkDispatched? then Dispatched
    else if s.RequireInput? then RoleNeedsInput
    else if s.RecordCrash? || Closes(s) then RoleFailed
    else if s.RequireLeaseReconcile? || s.RequireRoleReconcile? || s.RequireCleanupReconcile? then RoleReconcile
    else state
  }

  function OutcomeAfter(outcome: Outcome, s: Step): Outcome {
    if s.RequireInput? then OutNeedsInput
    else if s.RecordCrash? || Closes(s) then OutCrashed
    else if s.RequireRoleReconcile? || s.RequireCleanupReconcile? then NoOutcome
    else outcome
  }

  function ErrorAfter(error: string, s: Step): string {
    if s.RequireInput? then ""
    else if Ends(s) then s.reason
    else if s.RequireCleanupReconcile? then s.error
    else error
  }

  /** The lease is bound, doubted, adopted or closed; who holds it and since when never changes. */
  predicate LeaseAfter(l: SpawnLease, s: Step, at: int, l': SpawnLease) {
    && l'.binding == l.binding && l'.claimedAt == l.claimedAt
    && l'.state == (if s.BindLease? then LeaseBound else if s.RequireLeaseReconcile? then LeaseReconcile
                    else if s.ClaimDispatch? then LeaseAdopted else if Closes(s) then LeaseClosed else l.state)
    && l'.observed.status == (if s.BindLease? then ExactPane else if s.RequireLeaseReconcile? then PresentUnattestable
                              else if Closes(s) then ScopeAndPaneAbsent else l.observed.status)
    && l'.observed.bound == (if s.BindLease? then Some(BoundPane(s.pane, at)) else l.observed.bound)
    && l'.observed.observedAt == (if s.BindLease? || s.RequireLeaseReconcile? || Closes(s) then Some(at) else l.observed.observedAt)
    && l'.error == (if s.RequireLeaseReconcile? || Closes(s) then s.reason else l.error)
    && StopAfter(l.stop, s, at, l'.stop)
  }

  /** A stop is claimed, sent and confirmed, each at its time. */
  predicate StopAfter(stop: Option<StopRequest>, s: Step, at: int, stop': Option<StopRequest>) {
    if s.ClaimStop? then stop' == Some(StopRequest(StopClaimed, s.claimId, at, None, None, NothingSeen))
    else match stop
         case None => stop' == None
         case Some(x) =>
           match stop'
           case None => false
           case Some(y) =>
             && y.claimId == x.claimId && y.claimedAt == x.claimedAt
             && y.state == (if s.SendStop? then StopSent else if s.CompleteStop? then StopComplete else x.state)
             && y.sentAt == (if s.SendStop? then Some(at) else x.sentAt)
             && y.completedAt == (if s.CompleteStop? then Some(at) else x.completedAt)
             && y.observation == (if s.CompleteStop? then ScopeAndPaneAbsent else x.observation)
  }

  /** A cleanup is claimed, sent and completed, or doubted and recovered, which starts it anew or ends it. */
  predicate CleanupSteps(c: Cleanup, s: Step, at: int, c': Cleanup) {
    var recovers, anew := s.RecoverCleanup?, s.RecoverCleanup? && s.outcome == ExactWorker;
    && c'.state == (if s.ClaimCleanup? || anew then CleanupClaimed else if s.SendCleanup? then CleanupSent
                    else if s.CompleteCleanup? || recovers then CleanupComplete
                    else if s.RequireCleanupReconcile? then CleanupReconcile else c.state)
    && c'.claimId == (if s.ClaimCleanup? || recovers then s.claimId else c.claimId)
    && c'.claimedAt == (if s.ClaimCleanup? || anew then Some(at) else if recovers then None else c.claimedAt)
    && c'.sentAt == (if s.SendCleanup? then Some(at) else if recovers then None else c.sentAt)
    && c'.completedAt == (if s.CompleteCleanup? then Some(at) else if recovers then (if anew then None else Some(at)) else c.completedAt)
    && c'.error == (if s.RequireCleanupReconcile? then s.error else if recovers then "" else c.error)
    && c'.recoveryOutcome == (if recovers then s.outcome else c.recoveryOutcome)
    && c'.recoveredAt == (if recovers then Some(at) else c.recoveredAt)
    && c'.recoveryCount == c.recoveryCount + (if recovers then 1 else 0)
    && c'.history == c.history + if recovers then [Recovery(s.outcome, s.claimId, at)] else []
  }

  /** An adopted worker has to be cleaned up once its attempt is given up, at once in doubt when its state is. */
  predicate CleanupAfter(a: Attempt, s: Step, at: int, cleanup': Option<Cleanup>) {
    if Closes(s) || (GivesUp(s) && a.dispatch.None?) then cleanup' == None
    else if GivesUp(s) then
      match cleanup'
      case None => false
      case Some(c) =>
        && c.state == (if s.RequireRoleReconcile? then CleanupReconcile else CleanupPending)
        && c.error == (if s.RequireRoleReconcile? then s.reason else "")
        && c.claimId == "" && c.claimedAt == None && c.sentAt == None && c.completedAt == None
        && c.recoveryOutcome == NoRecovery && c.recoveredAt == None && c.recoveryCount == 0 && c.history == []
    else
      match a.cleanup
      case None => cleanup' == None
      case Some(c) => match cleanup' case None => false case Some(c') => CleanupSteps(c, s, at, c')
  }

  predicate AttemptAfter(a: Attempt, s: Step, at: int, a': Attempt) {
    && a'.id == a.id && a'.kind == a.kind && a'.inputDigest == a.inputDigest && a'.claimedAt == a.claimedAt
    && a'.state == AttemptStateAfter(a.state, s) && a'.outcome == OutcomeAfter(a.outcome, s) && a'.error == ErrorAfter(a.error, s)
    && a'.dispatch == (if s.ClaimDispatch? then Some(s.dispatch) else a.dispatch)
    && a'.dispatchClaimedAt == (if s.ClaimDispatch? then Some(at) else a.dispatchClaimedAt)
    && a'.submittedAt == (if s.MarkDispatched? then Some(at) else a.submittedAt)
    && a'.finishedAt == (if !Ends(s) || (Closes(s) && a.finishedAt.Some?) then a.finishedAt else Some(at))
    && (if s.RequireInput? || s.RecordCrash? then a'.summary == s.reason else Ends(s) || s.RequireCleanupReconcile? || a'.summary == a.summary)
    && LeaseAfter(a.lease, s, at, a'.lease) && CleanupAfter(a, s, at, a'.cleanup)
  }

  /** The last attempt changes, and the state of the role; its input and its report stay. */
  predicate RecordAfter(rec: RoleRecord, s: Step, at: int, rec': RoleRecord) {
    && rec.attempts != [] && |rec'.attempts| == |rec.attempts|
    && (forall i :: 0 <= i < |rec.attempts| - 1 ==> rec'.attempts[i] == rec.attempts[i])
    && AttemptAfter(rec.attempts[|rec.attempts| - 1], s, at, rec'.attempts[|rec.attempts| - 1])
    && rec'.state == RoleStateAfter(rec.state, s)
    && rec'.inputDigest == rec.inputDigest && rec'.report == rec.report && rec'.outputDigest == rec.outputDigest
  }

  lemma KeptCleanup(a: Attempt, s: Step, at: int)
    requires s.BindLease? || s.RequireLeaseReconcile? || s.ClaimStop? || s.SendStop? || s.ClaimDispatch? || s.MarkDispatched?
    ensures CleanupAfter(a, s, at, a.cleanup)
  {
    match a.cleanup {
      case None =>
      case Some(c) => assert c.history + [] == c.history;
    }
  }

  lemma KeptLease(l: SpawnLease, s: Step, at: int)
    requires !s.BindLease? && !s.RequireLeaseReconcile? && !s.ClaimStop? && !s.SendStop? && !s.ClaimDispatch? && !Closes(s)
    ensures LeaseAfter(l, s, at, l)
  {
  }

  lemma BindEffects(rec: RoleRecord, s: Step, at: int, rec': RoleRecord)
    requires s.BindLease? && BindRole(rec, s.attemptId, s.lease, s.pane, at) == Ok(rec')
    ensures RecordAfter(rec, s, at, rec')
  {
    hide RefersTo, ValidPane, CleanupAfter;
    KeptCleanup(rec.attempts[|rec.attempts| - 1], s, at);
  }

  lemma DoubtedLease(l: SpawnLease, s: Step, at: int)
    requires s.RequireLeaseReconcile?
    ensures LeaseAfter(l, s, at, l.(state := LeaseReconcile, error := s.reason,
                                    observed := l.observed.(status := PresentUnattestable, observedAt := Some(at))))
  {
  }

  lemma DoubtEffects(rec: RoleRecord, s: Step, at: int, rec': RoleRecord)
    requires s.RequireLeaseReconcile? && ReconcileLeaseRole(rec, s.attemptId, s.lease, s.reason, at) == Ok(rec')
    ensures RecordAfter(rec, s, at, rec')
  {
    hide RefersTo, CleanupAfter, LeaseAfter;
    KeptCleanup(rec.attempts[|rec.attempts| - 1], s, at);
    DoubtedLease(rec.attempts[|rec.attempts| - 1].lease, s, at);
  }

  lemma StopEffects(rec: RoleRecord, s: Step, at: int, rec': RoleRecord)
    requires (s.ClaimStop? && ClaimStopRole(rec, s.attemptId, s.leaseId, s.claimId, s.operatorConfirmed, at) == Ok(rec'))
             || (s.SendStop? && SendStopRole(rec, s.attemptId, s.leaseId, s.claimId, at) == Ok(rec'))
    ensures RecordAfter(rec, s, at, rec')
  {
    hide CleanupAfter;
    KeptCleanup(rec.attempts[|rec.attempts| - 1], s, at);
  }

  lemma CloseEffects(rec: RoleRecord, s: Step, at: int, rec': RoleRecord)
    requires s.CloseLeaseAbsent? && CloseLeaseRole(rec, s.attemptId, s.lease, s.reason, at) == Ok(rec')
    ensures RecordAfter(rec, s, at, rec')
  {
    hide RefersTo;
  }

  lemma StoppedEffects(rec: RoleRecord, s: Step, at: int, rec': RoleRecord)
    requires s.CompleteStop? && CompleteStopRole(rec, s.attemptId, s.lease, s.claimId, s.reason, at) == Ok(rec')
    ensures RecordAfter(rec, s, at, rec')
  {
    hide RefersTo;
  }

  lemma DispatchEffects(rec: RoleRecord, s: Step, at: int, rec': RoleRecord)
    requires s.ClaimDispatch? && DispatchRole(rec, s.attemptId, s.leaseId, s.dispatch, at) == Ok(rec')
    ensures RecordAfter(rec, s, at, rec')
  {
    hide WorkerMatchesLease, ValidPane, CleanupAfter;
    KeptCleanup(rec.attempts[|rec.attempts| - 1], s, at);
  }

  lemma SubmitEffects(rec: RoleRecord, s: Step, at: int, rec': RoleRecord)
    requires s.MarkDispatched? && SubmitRole(rec, s.attemptId, at) == Ok(rec')
    ensures RecordAfter(rec, s, at, rec')
  {
    hide CleanupAfter, LeaseAfter;
    KeptCleanup(rec.attempts[|rec.attempts| - 1], s, at);
    KeptLease(rec.attempts[|rec.attempts| - 1].lease, s, at);
  }

  lemma PendingCleanup(a: Attempt, s: Step, at: int)
    requires s.RequireInput? || s.RecordCrash?
    ensures CleanupAfter(a, s, at, if a.dispatch.Some? then Some(PENDING_CLEANUP) else None)
  {
  }

  lemma UnansweredEffects(rec: RoleRecord, s: Step, at: int, rec': RoleRecord)
    requires s.RequireInput? && UnreportedRole(rec, s.attemptId, OutNeedsInput, s.reason, at) == Ok(rec')
    ensures RecordAfter(rec, s, at, rec')
  {
    hide LeaseAfter, CleanupAfter;
    PendingCleanup(rec.attempts[|rec.attempts| - 1], s, at);
    KeptLease(rec.attempts[|rec.attempts| - 1].lease, s, at);
  }

  lemma CrashEffects(rec: RoleRecord, s: Step, at: int, rec': RoleRecord)
    requires s.RecordCrash? && UnreportedRole(rec, s.attemptId, OutCrashed, s.reason, at) == Ok(rec')
    ensures RecordAfter(rec, s, at, rec')
  {
    hide LeaseAfter, CleanupAfter;
    PendingCleanup(rec.attempts[|rec.attempts| - 1], s, at);
    KeptLease(rec.attempts[|rec.attempts| - 1].lease, s, at);
  }

  lemma LostEffects(rec: RoleRecord, s: Step, at: int, rec': RoleRecord)
    requires s.RequireRoleReconcile? && UnreportedRole(rec, s.attemptId, NoOutcome, s.reason, at) == Ok(rec')
    ensures RecordAfter(rec, s, at, rec')
  {
    hide LeaseAfter;
    KeptLease(rec.attempts[|rec.attempts| - 1].lease, s, at);
  }

  lemma NextCleanup(c: Cleanup, s: Step, at: int)
    ensures s.ClaimCleanup? ==> CleanupSteps(c, s, at, c.(state := CleanupClaimed, claimId := s.claimId, claimedAt := Some(at)))
    ensures s.SendCleanup? ==> CleanupSteps(c, s, at, c.(state := CleanupSent, sentAt := Some(at)))
    ensures s.CompleteCleanup? ==> CleanupSteps(c, s, at, c.(state := CleanupComplete, completedAt := Some(at)))
  {
    assert c.history + [] == c.history;
  }

  lemma ClaimedCleanupEffects(rec: RoleRecord, s: Step, at: int, rec': RoleRecord)
    requires s.ClaimCleanup? && ClaimCleanupRole(rec, s.attemptId, s.claimId, at) == Ok(rec')
    ensures RecordAfter(rec, s, at, rec')
  {
    hide LeaseAfter, CleanupSteps;
    var a := rec.attempts[|rec.attempts| - 1];
    KeptLease(a.lease, s, at);
    NextCleanup(a.cleanup.value, s, at);
  }

  lemma CleanupEffects(rec: RoleRecord, s: Step, at: int, rec': RoleRecord)
    requires (s.SendCleanup? && SendCleanupRole(rec, s.attemptId, at) == Ok(rec'))
             || (s.CompleteCleanup? && CompleteCleanupRole(rec, s.attemptId, at) == Ok(rec'))
    ensures RecordAfter(rec, s, at, rec')
  {
    hide LeaseAfter, CleanupSteps;
    var a := rec.attempts[|rec.attempts| - 1];
    KeptLease(a.lease, s, at);
    NextCleanup(a.cleanup.value, s, at);
  }

  lemma DoubtedCleanup(c: Cleanup, s: Step, at: int)
    requires s.RequireCleanupReconcile?
    ensures CleanupSteps(c, s, at, c.(state := CleanupReconcile, error := s.error))
  {
    assert c.history + [] == c.history;
  }

  lemma DoubtedCleanupEffects(rec: RoleRecord, s: Step, at: int, rec': RoleRecord)
    requires s.RequireCleanupReconcile? && ReconcileCleanupRole(rec, s.attemptId, s.error) == Ok(rec')
    ensures RecordAfter(rec, s, at, rec')
  {
    hide LeaseAfter, CleanupSteps;
    var a := rec.attempts[|rec.attempts| - 1];
    KeptLease(a.lease, s, at);
    DoubtedCleanup(a.cleanup.value, s, at);
  }

  lemma RecoveryEffects(rec: RoleRecord, s: Step, at: int, rec': RoleRecord)
    requires s.RecoverCleanup? && RecoverRole(rec, s.attemptId, s.outcome, s.claimId, at) == Ok(rec')
    ensures RecordAfter(rec, s, at, rec')
  {
    hide LeaseAfter;
    KeptLease(rec.attempts[|rec.attempts| - 1].lease, s, at);
  }

  /** What a step on the record of a role makes of it. */
  lemma RecordEffects(rec: RoleRecord, s: Step, at: int, rec': RoleRecord)
    requires (LocalStep(s) || BlamingStep(s)) && LocalEffect(rec, s, at) == Ok(rec')
    ensures RecordAfter(rec, s, at, rec')
  {
    hide RecordAfter, BindRole, ReconcileLeaseRole, CloseLeaseRole, ClaimStopRole, SendStopRole, CompleteStopRole, DispatchRole, SubmitRole,
      UnreportedRole, ClaimCleanupRole, SendCleanupRole, CompleteCleanupRole, ReconcileCleanupRole, RecoverRole;
    match s {
      case BindLease(_, _, _, _) => BindEffects(rec, s, at, rec');
      case RequireLeaseReconcile(_, _, _, _) => DoubtEffects(rec, s, at, rec');
      case CloseLeaseAbsent(_, _, _, _) => CloseEffects(rec, s, at, rec');
      case CompleteStop(_, _, _, _, _) => StoppedEffects(rec, s, at, rec');
      case ClaimDispatch(_, _, _, _) => DispatchEffects(rec, s, at, rec');
      case MarkDispatched(_, _) => SubmitEffects(rec, s, at, rec');
      case RequireInput(_, _, _) => UnansweredEffects(rec, s, at, rec');
      case RecordCrash(_, _, _) => CrashEffects(rec, s, at, rec');
      case RequireRoleReconcile(_, _, _) => LostEffects(rec, s, at, rec');
      case ClaimCleanup(_, _, _) => ClaimedCleanupEffects(rec, s, at, rec');
      case RequireCleanupReconcile(_, _, _) => DoubtedCleanupEffects(rec, s, at, rec');
      case RecoverCleanup(_, _, _, _) => RecoveryEffects(rec, s, at, rec');
      case _ =>
        if s.ClaimStop? || s.SendStop? {
          StopEffects(rec, s, at, rec');
        } else {
          CleanupEffects(rec, s, at, rec');
        }
    }
  }

  // ---------------------------------------------------------------- new attempts, reports, continuations

  /** A claimed role has one attempt more, which has everything still to do, under a lease nothing was seen of yet. */
  predicate NewAttempt(rec: RoleRecord, s: Step, at: int, rec': RoleRecord) {
    && s.ClaimSpawn? && |rec'.attempts| == |rec.attempts| + 1 && (forall i :: 0 <= i < |rec.attempts| ==> rec'.attempts[i] == rec.attempts[i])
    && (var a := rec'.attempts[|rec.attempts|];
        && a.id == s.attemptId && a.kind == s.role && a.state == Spawning && rec'.inputDigest == Some(a.inputDigest) && a.claimedAt == at
        && a.lease.binding == s.binding && a.lease.claimedAt == at && a.lease.state == LeaseClaimed && a.lease.stop == None && a.lease.error == ""
        && a.lease.observed.status == NothingSeen && a.lease.observed.bound == None && a.lease.observed.observedAt == None
        && a.dispatch == None && a.dispatchClaimedAt == None && a.submittedAt == None && a.finishedAt == None
        && a.outcome == NoOutcome && a.summary == "" && a.error == "" && a.cleanup == None)
    && rec'.state == SpawnClaimed && rec'.report == rec.report && rec'.outputDigest == rec.outputDigest
  }

  /** A reported attempt is finished, with the outcome the report has, and its worker is to be cleaned up. */
  predicate Reported(rec: RoleRecord, report: Report, at: int, rec': RoleRecord) {
    && rec.attempts != [] && |rec'.attempts| == |rec.attempts|
    && (forall i :: 0 <= i < |rec.attempts| - 1 ==> rec'.attempts[i] == rec.attempts[i])
    && (var (a, a') := (rec.attempts[|rec.attempts| - 1], rec'.attempts[|rec.attempts| - 1]);
        && a'.id == a.id && a'.kind == a.kind && a'.inputDigest == a.inputDigest && a'.claimedAt == a.claimedAt && a'.lease == a.lease
        && a'.dispatch == a.dispatch && a'.dispatchClaimedAt == a.dispatchClaimedAt && a'.submittedAt == a.submittedAt
        && a'.state == Finished && a'.finishedAt == Some(at) && a'.summary != ""
        && a'.outcome == (match report.status
                          case StComplete => OutComplete
                          case StNeedsInput => OutNeedsInput
                          case StBlocked => OutBlocked
                          case StFailed => OutFailed)
        && (report.status == StComplete || report.status == StNeedsInput ==> a'.error == "")
        && match a'.cleanup
           case None => a.dispatch == None
           case Some(c) =>
             && a.dispatch.Some? && c.state == CleanupPending && c.error == "" && c.claimId == "" && c.claimedAt == None && c.sentAt == None
             && c.completedAt == None && c.recoveryOutcome == NoRecovery && c.recoveredAt == None && c.recoveryCount == 0 && c.history == [])
    && rec'.state == (match report.status
                      case StComplete => Completed
                      case StNeedsInput => RoleNeedsInput
                      case _ => RoleFailed)
    && rec'.report == Some(report) && rec'.outputDigest == Some(report) && rec'.inputDigest == rec.inputDigest
  }

  /** An authorised continuation does what claiming the cleanup would, or recovering it; a claim that stands is kept. */
  predicate ContinuedAs(rec: RoleRecord, s: Step, at: int, rec': RoleRecord) {
    && s.ContinueCleanup?
    && (|| rec' == rec
        || RecordAfter(rec, ClaimCleanup(s.role, s.attemptId, s.claimId), at, rec')
        || RecordAfter(rec, RecoverCleanup(s.role, s.attemptId, ExactWorker, s.claimId), at, rec'))
    && (rec' == rec ==> HeldClaim(rec, s.claimId))
  }

  predicate HeldClaim(rec: RoleRecord, claimId: string) {
    && rec.attempts != []
    && match rec.attempts[|rec.attempts| - 1].cleanup
       case None => false
       case Some(c) => c.state == CleanupClaimed && c.claimId == claimId
  }

  lemma SpawnEffects(rec: RoleRecord, s: Step, b: RunBinding, d: InputDigest, at: int, rec': RoleRecord)
    requires s.ClaimSpawn? && SpawnRole(rec, s.role, b, d, s.attemptId, s.binding, at) == Ok(rec')
    ensures NewAttempt(rec, s, at, rec') && rec'.inputDigest == Some(d)
  {
    hide ValidLease, ExpectedLeaseBinding;
  }

  lemma ReportEffects(rec: RoleRecord, role: Role, b: RunBinding, id: string, report: Report, output: Report, at: int, rec': RoleRecord)
    requires ReportRole(rec, role, b, id, report, output, at) == Ok(rec')
    ensures Reported(rec, report, at, rec')
  {
    hide ReportFor, Joined, Cut, ReportSummary;
  }

  lemma ContinueEffects(rec: RoleRecord, s: Step, at: int, rec': RoleRecord)
    requires s.ContinueCleanup? && ContinueCleanupRole(rec, s.attemptId, s.claimId, s.outcome, at) == Ok(rec')
    ensures ContinuedAs(rec, s, at, rec')
  {
    hide RecordAfter;
    var claim, recover := ClaimCleanup(s.role, s.attemptId, s.claimId), RecoverCleanup(s.role, s.attemptId, ExactWorker, s.claimId);
    var c := rec.attempts[|rec.attempts| - 1].cleanup.value;
    if c.state == CleanupPending {
      ClaimedCleanupEffects(rec, claim, at, rec');
      assert rec' != rec by { assert rec'.attempts[|rec.attempts| - 1] != rec.attempts[|rec.attempts| - 1]; }
    } else if c.state == CleanupReconcile {
      RecoveredEffects(rec, recover, at, rec');
      assert rec' != rec by { assert rec'.attempts[|rec.attempts| - 1] != rec.attempts[|rec.attempts| - 1]; }
    }
  }

  lemma RecoveredEffects(rec: RoleRecord, s: Step, at: int, rec': RoleRecord)
    requires s.RecoverCleanup? && s.outcome == ExactWorker && rec.attempts != [] && rec.attempts[|rec.attempts| - 1].cleanup.Some?
    requires var a := rec.attempts[|rec.attempts| - 1]; rec' == WithCleanup(rec, a, Recovered(a.cleanup.value, ExactWorker, s.claimId, at))
    ensures RecordAfter(rec, s, at, rec')
  {
    hide LeaseAfter;
    KeptLease(rec.attempts[|rec.attempts| - 1].lease, s, at);
  }

  // ---------------------------------------------------------------- the run

  /** The phase after a step: the last role of a phase that is done moves an active run on, a candidate takes it
      to review, and being applied or cancelled ends it. */
  predicate PhaseAfter(r: Run, s: Step, next: Run) {
    if s.CompleteCleanup? && r.condition == Active && r.phase == PhasePo && s.role == PO && Tables.Done(next.roles.po) then next.phase == PhaseBa
    else if s.CompleteCleanup? && r.condition == Active && r.phase == PhaseBa && s.role == BA && Tables.Done(next.roles.ba) then next.phase == PhaseChallenge
    else if s.CompleteCleanup? && r.condition == Active && r.phase == PhaseChallenge && (s.role == QA || s.role == DEV)
            && Tables.Done(next.roles.qa) && Tables.Done(next.roles.dev) then next.phase == PhaseSynthesis
    else if s.CompileCandidate? && next.candidate.Some? then next.phase == PhaseReview
    else if s.MarkApplied? then next.phase == PhaseApplied
    else if s.CancelRun? then next.phase == PhaseClosed
    else next.phase == r.phase
  }

  /** A trial synthesis failed, which is remembered. */
  predicate TrialFailed(r: Run, next: Run) {
    next.synthesisBlocker != r.synthesisBlocker
  }

  /** The condition after a step, in a run that is not off course. */
  predicate ConditionAfter(r: Run, s: Step, next: Run) {
    match s
    case RequireLeaseReconcile(_, _, _, _) => next.condition == Reconciling
    case RequireRoleReconcile(_, _, _) => next.condition == Reconciling
    case RequireCleanupReconcile(_, _, _) => next.condition == Reconciling
    case RequireApplyReconcile(_, _) => next.condition == Reconciling
    case CloseLeaseAbsent(_, _, _, _) => next.condition == RunFailed
    case CompleteStop(_, _, _, _, _) => next.condition == RunFailed
    case RecordCrash(_, _, _) => next.condition == RunFailed
    case RequireInput(_, _, _) => next.condition == AwaitingInput
    case RecordReport(_, _, report, _, _, _) =>
      && (report.status == StNeedsInput ==> next.condition == AwaitingInput)
      && (report.status == StBlocked || report.status == StFailed ==> next.condition == RunFailed)
      && (report.status == StComplete && TrialFailed(r, next) ==> next.condition == AwaitingInput)
      && (report.status == StComplete && !TrialFailed(r, next) ==> next.condition == r.condition)
    case WaitForResources(_, _) => next.condition == ResourceWait
    case ClaimSpawn(_, _, _) => next.condition == Active
    case RetryResources(_, _, _, _) => next.condition == Active
    case MarkApplied(_, _, _, _) => next.condition == Active
    case CompileCandidate => next.condition == if next.candidate.Some? then Active else AwaitingInput
    case CancelRun(_, _) => next.condition == RunCanceled
    case LeaveCourse(_) => next.condition == OffCourse
    case _ => next.condition == r.condition
  }

  /** What stands in the way of the run after a step. */
  predicate BlockerAfter(r: Run, s: Step, next: Run) {
    if s.LeaveCourse? || s.CancelRun? then next.blocker == s.reason
    else if r.condition == OffCourse then next.blocker == r.blocker
    else if Ends(s) || s.WaitForResources? then next.blocker == s.reason
    else if s.RequireCleanupReconcile? || s.RequireApplyReconcile? then next.blocker == s.error
    else if s.RecordReport? then (next.blocker == "" <==> s.report.status == StComplete && !TrialFailed(r, next))
    else if s.CompileCandidate? then (next.blocker == "" <==> next.candidate.Some?)
    else if s.ClaimSpawn? || s.RetryResources? || s.MarkApplied? then next.blocker == ""
    else next.blocker == r.blocker
  }

  predicate SameApplication(o: ApplyOutbox, o': ApplyOutbox) {
    o'.candidateDigest == o.candidateDigest && o'.claimId == o.claimId && o'.claimedAt == o.claimedAt
  }

  predicate SameReceipt(o: ApplyOutbox, o': ApplyOutbox) {
    o'.appliedPlanRevision == o.appliedPlanRevision && o'.appliedPlanDigest == o.appliedPlanDigest && o'.appliedAt == o.appliedAt
  }

  /** The application of the candidate: claimed, applied, doubted or abandoned, each at its time. */
  predicate OutboxAfter(o: ApplyOutbox, s: Step, at: int, o': ApplyOutbox) {
    if s.CompileCandidate? then o' == ApplyOutbox(Held, None, "", None, None, None, None, false, "", at)
    else if s.ClaimApply? then o' == ApplyOutbox(ApplyClaimed, Some(s.candidateDigest), s.applyClaimId, Some(at), None, None, None, false, "", at)
    else if s.MarkApplied? then
      && SameApplication(o, o') && o'.updatedAt == at && o'.state == ApplyApplied && o'.error == "" && !o'.receiptAbsent
      && o'.appliedPlanRevision == Some(s.planRevision) && o'.appliedPlanDigest == Some(s.planDigest) && o'.appliedAt == Some(at)
    else if s.RequireApplyReconcile? then
      && SameApplication(o, o') && SameReceipt(o, o') && o'.updatedAt == at && o'.state == ApplyReconcile && o'.error == s.error
      && o'.receiptAbsent == o.receiptAbsent
    else if s.AbandonApply? then
      SameApplication(o, o') && SameReceipt(o, o') && o'.updatedAt == at && o'.state == Abandoned && o'.error == s.reason && o'.receiptAbsent
    else o' == o
  }

  /** What a step makes of the record of its role. */
  predicate RoleAfter(rec: RoleRecord, s: Step, at: int, rec': RoleRecord) {
    if LocalStep(s) || BlamingStep(s) then RecordAfter(rec, s, at, rec')
    else if s.ClaimSpawn? then NewAttempt(rec, s, at, rec')
    else if s.RecordReport? then Reported(rec, s.report, at, rec')
    else if s.ContinueCleanup? then ContinuedAs(rec, s, at, rec')
    else rec' == rec
  }

  /** A step touches the record of no other role. */
  predicate RolesAfter(t: RoleTable, s: Step, at: int, t': RoleTable) {
    match RoleOf(s)
    case None => t' == t
    case Some(role) => RoleAfter(t.Get(role), s, at, t'.Get(role)) && forall other :: other != role ==> t'.Get(other) == t.Get(other)
  }

  /** The receipts, the candidate and the memory of a failed synthesis. */
  predicate LedgerAfter(r: Run, s: Step, at: int, next: Run) {
    && (if s.RetryResources? || s.ContinueCleanup? then |next.receipts| == |r.receipts| + 1 && next.receipts[..|r.receipts|] == r.receipts
        else next.receipts == r.receipts)
    && (if s.CompileCandidate?
        then match next.candidate
             case Some(c) => BuildCandidate(r, at) == Ok(c) && next.synthesisBlocker == None
             case None => BuildCandidate(r, at).Err? && next.synthesisBlocker.Some?
        else next.candidate == r.candidate && (s.RecordReport? || next.synthesisBlocker == r.synthesisBlocker))
  }

  /** All a step changes. */
  predicate RunAfter(r: Run, s: Step, at: int, next: Run) {
    && RolesAfter(r.roles, s, at, next.roles) && PhaseAfter(r, s, next) && OutboxAfter(r.applyOutbox, s, at, next.applyOutbox)
    && BlockerAfter(r, s, next) && LedgerAfter(r, s, at, next)
    && (if r.condition == OffCourse && !s.CancelRun? then next.condition == OffCourse else ConditionAfter(r, s, next))
  }

  lemma OneRole(t: RoleTable, role: Role, s: Step, at: int, rec: RoleRecord)
    requires RoleOf(s) == Some(role) && RoleAfter(t.Get(role), s, at, rec)
    ensures RolesAfter(t, s, at, t.With(role, rec)) && t.With(role, rec).Get(role) == rec
  {
    hide RoleAfter;
  }

  lemma AllDone(t: RoleTable)
    ensures Tables.Done(t.po) == CompletedAndCleaned(t.po) && Tables.Done(t.ba) == CompletedAndCleaned(t.ba)
    ensures Tables.Done(t.qa) == CompletedAndCleaned(t.qa) && Tables.Done(t.dev) == CompletedAndCleaned(t.dev)
  {
    hide Tables.Done, CompletedAndCleaned;
    Tables.DoneMeans(t.po);
    Tables.DoneMeans(t.ba);
    Tables.DoneMeans(t.qa);
    Tables.DoneMeans(t.dev);
  }

  lemma RoleStepAfter(r: Run, s: Step, at: int, m: Run)
    requires (LocalStep(s) || BlamingStep(s)) && Mutated(r, s, at) == Ok(m)
    ensures RolesAfter(r.roles, s, at, m.roles)
  {
    hide LocalEffect, RecordAfter, AdvancedPhase, RolesAfter;
    var rec := LocalEffect(r.roles.Get(s.role), s, at).value;
    RecordEffects(r.roles.Get(s.role), s, at, rec);
    OneRole(r.roles, s.role, s, at, rec);
  }

  /** A step that replaces one record, and at most moves the phase on. */
  lemma LocalAfter(r: Run, s: Step, at: int, m: Run)
    requires LocalStep(s) && RolesAfter(r.roles, s, at, m.roles)
    requires m == r.(roles := m.roles, phase := if s.CompleteCleanup? then AdvancedPhase(r.(roles := m.roles), s.role) else r.phase)
    ensures RunAfter(r, s, at, m)
  {
    hide CompletedAndCleaned, Tables.Done, RolesAfter;
    AllDone(m.roles);
  }

  lemma LocalCopy(r: Run, s: Step, at: int, m: Run)
    requires LocalStep(s) && Mutated(r, s, at) == Ok(m)
    ensures m == r.(roles := m.roles, phase := if s.CompleteCleanup? then AdvancedPhase(r.(roles := m.roles), s.role) else r.phase)
  {
    hide LocalEffect, AdvancedPhase;
  }

  /** A step that replaces one record and blames the run for it. */
  lemma BlamingAfter(r: Run, s: Step, at: int, m: Run)
    requires BlamingStep(s) && RolesAfter(r.roles, s, at, m.roles) && m == Blame(r.(roles := m.roles), BlamedCondition(s), BlameReason(s))
    ensures RunAfter(r, s, at, m)
  {
    hide Tables.Done, RolesAfter;
  }

  lemma BlamingCopy(r: Run, s: Step, at: int, m: Run)
    requires BlamingStep(s) && Mutated(r, s, at) == Ok(m)
    ensures m == Blame(r.(roles := m.roles), BlamedCondition(s), BlameReason(s))
  {
    hide LocalEffect, BlamedCondition, BlameReason;
  }

  lemma SpawnAfter(r: Run, s: Step, at: int, m: Run)
    requires s.ClaimSpawn? && SpawnMutation(r, s.role, s.attemptId, s.binding, at) == Ok(m)
    ensures RunAfter(r, s, at, m)
  {
    hide SpawnRole, RolesAfter, NewAttempt, Tables.Done, RoleInputDigest, BlamingStep, LocalStep;
    var d := RoleInputDigest(r, s.role).value;
    var rec := SpawnRole(r.roles.Get(s.role), s.role, BindingOf(r), d, s.attemptId, s.binding, at).value;
    SpawnEffects(r.roles.Get(s.role), s, BindingOf(r), d, at, rec);
    SpawnedRole(r.roles, s, at, rec);
  }

  lemma SpawnedRole(t: RoleTable, s: Step, at: int, rec: RoleRecord)
    requires s.ClaimSpawn? && NewAttempt(t.Get(s.role), s, at, rec)
    ensures RolesAfter(t, s, at, t.With(s.role, rec))
  {
    hide NewAttempt, RolesAfter;
    OneRole(t, s.role, s, at, rec);
  }

  lemma WaitAfter(r: Run, s: Step, at: int, m: Run)
    requires (s.WaitForResources? && WaitMutation(r, s.role, s.reason) == Ok(m))
             || (s.RetryResources? && RetryMutation(r, s.role, ReceiptOf(s, at)) == Ok(m))
    ensures RunAfter(r, s, at, m)
  {
    hide ReceiptAllowed, Tables.Done;
  }

  lemma ContinuedAfter(r: Run, s: Step, at: int, m: Run)
    requires s.ContinueCleanup? && ContinueMutation(r, ReceiptOf(s, at), at) == Ok(m)
    ensures RunAfter(r, s, at, m)
  {
    hide ReceiptAllowed, ContinueCleanupRole, RolesAfter, ContinuedAs, Tables.Done;
    var rec := ContinueCleanupRole(r.roles.Get(s.role), s.attemptId, s.claimId, s.outcome, at).value;
    ContinueEffects(r.roles.Get(s.role), s, at, rec);
    ContinuedRole(r.roles, s, at, rec);
  }

  lemma ContinuedRole(t: RoleTable, s: Step, at: int, rec: RoleRecord)
    requires s.ContinueCleanup? && ContinuedAs(t.Get(s.role), s, at, rec)
    ensures RolesAfter(t, s, at, t.With(s.role, rec))
  {
    hide ContinuedAs, RolesAfter;
    OneRole(t, s.role, s, at, rec);
  }

  lemma ReportedRole(t: RoleTable, s: Step, at: int, rec: RoleRecord)
    requires s.RecordReport? && Reported(t.Get(s.role), s.report, at, rec)
    ensures RolesAfter(t, s, at, t.With(s.role, rec))
  {
    hide Reported, RolesAfter;
    OneRole(t, s.role, s, at, rec);
  }

  lemma BlockerText(role: Role, report: Report)
    ensures ReportBlocker(role, report) == "" <==> report.status == StComplete
  {
    hide Joined;
  }

  /** Without a trial synthesis, or when it succeeds. */
  lemma UntriedAfter(r: Run, s: Step, at: int, m: Run)
    requires s.RecordReport? && RolesAfter(r.roles, s, at, m.roles)
    requires m == r.(roles := m.roles, condition := ReportCondition(r.condition, s.report),
                     blocker := if r.condition == OffCourse then r.blocker else ReportBlocker(s.role, s.report))
    ensures RunAfter(r, s, at, m)
  {
    hide RolesAfter, Tables.Done, ReportBlocker, BlamingStep, LocalStep;
    BlockerText(s.role, s.report);
  }

  lemma TriedAfter(r: Run, s: Step, at: int, m: Run, b: SynthesisBlocker, reason: string)
    requires s.RecordReport? && RolesAfter(r.roles, s, at, m.roles) && s.report.status == StComplete && reason != "" && r.synthesisBlocker == None
    requires m == r.(roles := m.roles, synthesisBlocker := Some(b), condition := if r.condition == OffCourse then OffCourse else AwaitingInput,
                     blocker := if r.condition == OffCourse then r.blocker else reason)
    ensures RunAfter(r, s, at, m)
  {
    hide RolesAfter, Tables.Done, ReportBlocker, BlamingStep, LocalStep;
  }

  lemma ReportAfter(r: Run, s: Step, at: int, m: Run)
    requires s.RecordReport? && RecordReportStep(r, s.role, s.attemptId, s.report, s.outputDigest, s.envelopeFits, s.candidateFits, at) == Ok(m)
    requires r.synthesisBlocker == None
    ensures RunAfter(r, s, at, m)
  {
    hide ReportRole, RolesAfter, Reported, RunAfter, BuildCandidate, SynthesisReason, ReportBlocker;
    var rec := ReportRole(r.roles.Get(s.role), s.role, BindingOf(r), s.attemptId, s.report, s.outputDigest, at).value;
    ReportEffects(r.roles.Get(s.role), s.role, BindingOf(r), s.attemptId, s.report, s.outputDigest, at, rec);
    ReportedRole(r.roles, s, at, rec);
    if m.synthesisBlocker == None {
      UntriedAfter(r, s, at, m);
    } else {
      var b := m.synthesisBlocker.value;
      TriedAfter(r, s, at, m, b, SynthesisReason(b.code));
    }
  }

  lemma ClaimedAfter(r: Run, s: Step, at: int, m: Run)
    requires s.ClaimApply? && ClaimApplyStep(r, s.applyClaimId, s.candidateDigest, at) == Ok(m)
    ensures RunAfter(r, s, at, m)
  {
    hide Tables.Done;
  }

  lemma AppliedAfter(r: Run, s: Step, at: int, m: Run)
    requires s.MarkApplied? && AppliedStep(r, s.applyClaimId, s.candidateDigest, s.planRevision, s.planDigest, at) == Ok(m)
    ensures RunAfter(r, s, at, m)
  {
    hide Tables.Done;
  }

  lemma UnappliedAfter(r: Run, s: Step, at: int, m: Run)
    requires (s.RequireApplyReconcile? && ReconcileApplyStep(r, s.applyClaimId, s.error, at) == Ok(m))
             || (s.AbandonApply? && AbandonStep(r, s.applyClaimId, s.candidateDigest, s.reason, at) == Ok(m))
    ensures RunAfter(r, s, at, m)
  {
    hide Tables.Done;
  }

  lemma EndAfter(r: Run, s: Step, at: int, m: Run)
    requires (s.LeaveCourse? && OffCourseStep(r, s.reason) == Ok(m)) || (s.CancelRun? && CancelStep(r, s.operatorConfirmed, s.reason) == Ok(m))
    ensures RunAfter(r, s, at, m)
  {
    hide Tables.Done, UnresolvedWorker;
  }

  lemma CompileAfter(r: Run, s: Step, at: int, m: Run)
    requires s.CompileCandidate? && CompileStep(r, at) == Ok(m)
    ensures RunAfter(r, s, at, m)
  {
    hide Tables.Done, BuildCandidate, SynthesisReason;
  }

  lemma NotTried(r: Run, role: Role)
    requires ValidRun(r) && r.roles.Get(role).state == Dispatched
    ensures r.synthesisBlocker == None
  {
    hide ValidSourcePlan, ValidCandidate, ValidOutbox, ValidReceipts, PhaseLifecycle, ConditionLifecycle, ValidAttemptBinding, ValidAttemptLifecycle,
      ReportFor;
  }

  /** An accepted step changes exactly this: the record of its own role, as far as the step goes; phase, condition
      and blocker of the run; the application; and the receipts, the candidate and the memory of a failed synthesis. */
  lemma StepEffects(r: Run, s: Step, at: int, next: Run)
    requires Perform(r, s, at) == Ok(next)
    ensures RunAfter(r, s, at, next) && SameIdentity(r.(revision := r.revision + 1), next)
  {
    hide ValidRun, Mutated, RunAfter;
    var m := Mutated(r, s, at).value;
    MutatedAfter(r, s, at, m);
    StampedAfter(r, s, at, m);
    MutatedIdentity(r, s, at, m);
  }

  /** Revision and time are no part of this. */
  lemma StampedAfter(r: Run, s: Step, at: int, m: Run)
    requires RunAfter(r, s, at, m)
    ensures RunAfter(r, s, at, Stamped(m, at))
  {
    hide RolesAfter, OutboxAfter, PhaseAfter, BlockerAfter, LedgerAfter, ConditionAfter;
    StampedPhase(r, s, at, m);
    StampedCondition(r, s, at, m);
    StampedLedger(r, s, at, m);
  }

  lemma StampedPhase(r: Run, s: Step, at: int, m: Run)
    ensures PhaseAfter(r, s, m) ==> PhaseAfter(r, s, Stamped(m, at))
  {
    hide Tables.Done;
  }

  lemma StampedCondition(r: Run, s: Step, at: int, m: Run)
    ensures ConditionAfter(r, s, m) ==> ConditionAfter(r, s, Stamped(m, at))
    ensures BlockerAfter(r, s, m) ==> BlockerAfter(r, s, Stamped(m, at))
  {
  }

  lemma StampedLedger(r: Run, s: Step, at: int, m: Run)
    ensures LedgerAfter(r, s, at, m) ==> LedgerAfter(r, s, at, Stamped(m, at))
  {
    hide BuildCandidate;
  }

  lemma MutatedAfter(r: Run, s: Step, at: int, m: Run)
    requires ValidRun(r) && Mutated(r, s, at) == Ok(m)
    ensures RunAfter(r, s, at, m)
  {
    hide ValidRun, RunAfter, RolesAfter, LocalMutation, BlamingMutation, SpawnMutation, RecordReportStep, WaitMutation, RetryMutation, ContinueMutation,
      CompileStep, ClaimApplyStep, AppliedStep, ReconcileApplyStep, AbandonStep, OffCourseStep, CancelStep;
    if LocalStep(s) {
      RoleStepAfter(r, s, at, m);
      LocalCopy(r, s, at, m);
      LocalAfter(r, s, at, m);
    } else if BlamingStep(s) {
      RoleStepAfter(r, s, at, m);
      BlamingCopy(r, s, at, m);
      BlamingAfter(r, s, at, m);
    } else {
      match s {
        case ClaimSpawn(_, _, _) => SpawnAfter(r, s, at, m);
        case RecordReport(_, _, _, _, _, _) =>
          Calls.ReportGuard(r, s, at);
          NotTried(r, s.role);
          ReportAfter(r, s, at, m);
        case ContinueCleanup(_, _, _, _, _, _, _) => ContinuedAfter(r, s, at, m);
        case CompileCandidate => CompileAfter(r, s, at, m);
        case ClaimApply(_, _) => ClaimedAfter(r, s, at, m);
        case MarkApplied(_, _, _, _) => AppliedAfter(r, s, at, m);
        case _ =>
          if s.WaitForResources? || s.RetryResources? {
            WaitAfter(r, s, at, m);
          } else if s.RequireApplyReconcile? || s.AbandonApply? {
            UnappliedAfter(r, s, at, m);
          } else {
            EndAfter(r, s, at, m);
          }
      }
    }
  }
}