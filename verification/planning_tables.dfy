/** What a valid Planning Run holds in each of its states, as tables the validator comes to. */
module PlanningTables {
  import opened Errors
  import opened Wrappers
  import opened PlanningRuns

  // ---------------------------------------------------------------- leases

  predicate StopTable(x: StopRequest) {
    && x.claimId != ""
    && match x.state
       case StopClaimed => x.sentAt == None && x.completedAt == None && x.observation == NothingSeen
       case StopSent => x.completedAt == None && x.observation == NothingSeen && (match x.sentAt case None => false case Some(t) => x.claimedAt <= t)
       case StopComplete =>
         && x.observation == ScopeAndPaneAbsent
         && match x.completedAt
            case None => false
            case Some(done) => match x.sentAt case None => x.claimedAt <= done case Some(t) => x.claimedAt <= t <= done
  }

  lemma StopMeans(x: StopRequest)
    ensures ValidStop(x) <==> StopTable(x)
  {
  }

  /** The pane, bound within the time the lease allows. */
  predicate BoundInTime(l: SpawnLease) {
    match l.observed.bound
    case None => true
    case Some(b) =>
      && b.pane.paneId != "" && b.pane.tmuxPaneId != "" && b.pane.panePid >= 1 && b.pane.paneTty != ""
      && l.claimedAt <= b.boundAt <= l.binding.bindDeadlineAt
  }

  /** What was seen of the worker last, and when. */
  predicate Seen(l: SpawnLease, status: Observation) {
    && l.observed.status == status
    && match l.observed.observedAt
       case None => false
       case Some(t) => l.claimedAt <= t
  }

  predicate StopIn(l: SpawnLease, states: set<StopState>) {
    match l.stop
    case None => true
    case Some(x) => StopTable(x) && x.state in states && l.claimedAt <= x.claimedAt
  }

  /** A lease is to be bound within five minutes; nothing is seen before, the exact pane after it is bound, something
      that cannot be told while it is in doubt, and nothing left when it is closed. */
  predicate LeaseTable(l: SpawnLease) {
    && l.claimedAt < l.binding.bindDeadlineAt <= l.claimedAt + 300000 && BoundInTime(l)
    && match l.state
       case LeaseClaimed =>
         && l.observed.status == NothingSeen && l.observed.bound == None && l.observed.observedAt == None && l.stop == None && l.error == ""
       case LeaseBound => Seen(l, ExactPane) && l.observed.bound != None && l.stop == None && l.error == ""
       case LeaseAdopted => Seen(l, ExactPane) && l.observed.bound != None && l.stop == None && l.error == ""
       case LeaseReconcile => Seen(l, PresentUnattestable) && l.error != "" && StopIn(l, {StopClaimed, StopSent})
       case LeaseClosed => Seen(l, ScopeAndPaneAbsent) && l.error != "" && StopIn(l, {StopComplete})
  }

  lemma LeaseMeans(l: SpawnLease, expected: LeaseBinding)
    ensures ValidLease(l, expected) <==> l.binding == expected && LeaseTable(l)
  {
    hide ValidStop, StopTable;
    match l.stop {
      case None =>
      case Some(x) => StopMeans(x);
    }
  }

  // ---------------------------------------------------------------- cleanups

  predicate InOrder(h: seq<Recovery>) {
    forall i, j :: 0 <= i < j < |h| ==> h[i].observedAt <= h[j].observedAt
  }

  /** Each recovery either found the worker gone, or claimed its cleanup anew, never twice under one claim. */
  predicate HistoryTable(h: seq<Recovery>) {
    && InOrder(h)
    && (forall i :: 0 <= i < |h| ==> (h[i].outcome == WorkerAbsent && h[i].claimId == "") || (h[i].outcome == ExactWorker && h[i].claimId != ""))
    && (forall i, j :: 0 <= i < j < |h| && h[i].outcome == h[j].outcome == ExactWorker ==> h[i].claimId != h[j].claimId)
  }

  /** The last recovery, if there was one. */
  predicate LastRecovery(c: Cleanup) {
    if c.history == [] then c.recoveryOutcome == NoRecovery && c.recoveredAt == None
    else c.history[|c.history| - 1].outcome == c.recoveryOutcome && Some(c.history[|c.history| - 1].observedAt) == c.recoveredAt
  }

  predicate CleanupTable(c: Cleanup) {
    && 0 <= c.recoveryCount <= 3 && |c.history| == c.recoveryCount && HistoryTable(c.history) && LastRecovery(c)
    && match c.state
       case CleanupPending =>
         c.recoveryCount == 0 && c.claimId == "" && c.claimedAt == None && c.sentAt == None && c.completedAt == None && c.error == ""
       case CleanupClaimed =>
         && c.recoveryOutcome != WorkerAbsent && c.claimId != "" && c.claimedAt != None && c.sentAt == None && c.completedAt == None && c.error == ""
       case CleanupSent =>
         && c.recoveryOutcome != WorkerAbsent && c.claimId != "" && c.claimedAt != None && c.sentAt != None && c.completedAt == None && c.error == ""
       case CleanupComplete =>
         && c.completedAt != None && c.error == ""
         && (if c.recoveryOutcome == WorkerAbsent then c.claimId == "" && c.claimedAt == None && c.sentAt == None
             else c.claimId != "" && c.claimedAt != None && c.sentAt != None)
       case CleanupReconcile => c.recoveryOutcome != WorkerAbsent && c.completedAt == None && c.error != ""
  }

  lemma HistoryMeans(h: seq<Recovery>)
    ensures ValidHistory(h) <==> HistoryTable(h)
  {
  }

  lemma CleanupMeans(c: Cleanup)
    ensures ValidCleanup(c) <==> CleanupTable(c)
  {
    hide ValidHistory, HistoryTable;
    HistoryMeans(c.history);
  }

  // ---------------------------------------------------------------- attempts

  /** The adopted worker runs in the pane, the session and the scope of the lease, and what it launched. */
  predicate Adopted(a: Attempt) {
    && a.lease.state == LeaseAdopted
    && match a.dispatch
       case None => false
       case Some(d) =>
         && d.worker.session == a.lease.binding.session && d.worker.commandDigest == a.lease.binding.launchDigest
         && d.worker.scopeUnit == a.lease.binding.scopeUnit && d.worker.scopeDigest == a.lease.binding.scopeDigest
         && match a.lease.observed.bound
            case None => false
            case Some(b) => d.worker.pane == b.pane
  }

  /** Nobody was adopted, and the lease is in one of these states. */
  predicate Provisional(a: Attempt, states: set<LeaseState>) {
    a.dispatch == None && a.lease.state in states && a.lease.state != LeaseAdopted && a.cleanup == None
  }

  predicate Unfinished(a: Attempt) {
    a.finishedAt == None && a.outcome == NoOutcome && a.summary == "" && a.error == "" && a.cleanup == None
  }

  /** An attempt is spawning, dispatching or submitted, or it is over: finished by an adopted worker, crashed, or in doubt. */
  predicate AttemptTable(a: Attempt) {
    match a.state
    case Spawning => Provisional(a, {LeaseClaimed, LeaseBound}) && a.dispatchClaimedAt == None && a.submittedAt == None && Unfinished(a)
    case Dispatching => Adopted(a) && a.dispatchClaimedAt != None && a.submittedAt == None && Unfinished(a)
    case Submitted => Adopted(a) && a.dispatchClaimedAt != None && a.submittedAt != None && Unfinished(a)
    case Finished => Adopted(a) && a.finishedAt != None && a.outcome != NoOutcome && a.summary != "" && a.cleanup != None
    case Crashed =>
      (Adopted(a) || Provisional(a, {LeaseClosed})) && a.finishedAt != None && a.outcome == OutCrashed && a.summary != ""
    case AttemptReconcile =>
      (Adopted(a) || Provisional(a, {LeaseReconcile})) && a.finishedAt != None && a.outcome == NoOutcome && a.summary != "" && a.error != ""
  }

  /** The attempt is the role's own, under a lease made out for it, and holds what its state calls for. */
  predicate OwnAttempt(a: Attempt, role: Role, b: RunBinding) {
    && a.id != "" && a.kind == role && LeaseTable(a.lease) && AttemptTable(a)
    && a.lease.binding == ExpectedLeaseBinding(b, role, a.id, a.inputDigest, a.lease.binding.contextDigest,
                                               a.lease.binding.launchDigest, a.lease.binding.bindDeadlineAt)
    && match a.cleanup
       case None => true
       case Some(c) => CleanupTable(c)
  }

  lemma AdoptedMeans(a: Attempt)
    requires LeaseTable(a.lease)
    ensures Adopted(a) <==> match a.dispatch { case None => false case Some(d) => WorkerMatchesLease(d.worker, a.lease) }
    ensures a.lease.state == LeaseAdopted ==> a.lease.stop == None
    ensures Adopted(a) ==> a.lease.state == LeaseAdopted && a.dispatch.Some?
  {
  }

  lemma LifecycleMeans(a: Attempt)
    requires LeaseTable(a.lease)
    ensures ValidAttemptLifecycle(a) <==> AttemptTable(a)
  {
    hide WorkerMatchesLease, Adopted, LeaseTable;
    AdoptedMeans(a);
    match a.cleanup {
      case None =>
      case Some(_) =>
    }
    match a.dispatch {
      case None =>
      case Some(_) =>
    }
  }

  lemma AttemptMeans(a: Attempt, role: Role, b: RunBinding)
    ensures ValidAttemptBinding(a, role, b) && ValidAttemptLifecycle(a) <==> OwnAttempt(a, role, b)
  {
    hide ValidLease, LeaseTable, ValidAttemptLifecycle, AttemptTable, ValidCleanup, CleanupTable, ExpectedLeaseBinding;
    LeaseMeans(a.lease, ExpectedLeaseBinding(b, role, a.id, a.inputDigest, a.lease.binding.contextDigest,
                                             a.lease.binding.launchDigest, a.lease.binding.bindDeadlineAt));
    if LeaseTable(a.lease) {
      LifecycleMeans(a);
    }
    match a.cleanup {
      case None =>
      case Some(c) => CleanupMeans(c);
    }
  }

  // ---------------------------------------------------------------- roles

  /** The role has its one attempt, in this state, with this outcome. */
  predicate Attempted(rec: RoleRecord, state: AttemptState, outcomes: set<Outcome>) {
    |rec.attempts| == 1 && rec.attempts[0].state == state && rec.attempts[0].outcome in outcomes
  }

  predicate AtWork(rec: RoleRecord, state: AttemptState) {
    |rec.attempts| == 1 && rec.attempts[0].state == state && rec.inputDigest != None && rec.report == None
  }

  /** The report is on the work the attempt was given, with an artifact of the role. */
  predicate OwnReport(rec: RoleRecord, role: Role, b: RunBinding, x: Report) {
    && |rec.attempts| == 1 && rec.inputDigest == Some(x.inputDigest) && x.attemptId == rec.attempts[0].id && x.role == role
    && x.runId == b.runId && x.planId == b.planId && x.planRevision == b.planRevision
    && match role
       case PO => x.artifact.ArtPo?
       case BA => x.artifact.ArtBa?
       case QA => x.artifact.ArtQa?
       case DEV => x.artifact.ArtDev?
  }

  predicate ReportIs(rec: RoleRecord, status: Status) {
    match rec.report
    case None => false
    case Some(x) => x.status == status
  }

  predicate RecordTable(rec: RoleRecord, role: Role, b: RunBinding) {
    && |rec.attempts| <= 1 && rec.outputDigest == rec.report
    && (|rec.attempts| == 1 ==> OwnAttempt(rec.attempts[0], role, b) && (rec.inputDigest == None || rec.inputDigest == Some(rec.attempts[0].inputDigest)))
    && (match rec.report
        case None => true
        case Some(x) => OwnReport(rec, role, b, x))
    && match rec.state
       case Pending => rec.attempts == [] && rec.inputDigest == None && rec.report == None
       case SpawnClaimed => AtWork(rec, Spawning)
       case DispatchClaimed => AtWork(rec, Dispatching)
       case Dispatched => AtWork(rec, Submitted)
       case Completed => Attempted(rec, Finished, {OutComplete}) && ReportIs(rec, StComplete)
       case RoleNeedsInput => Attempted(rec, Finished, {OutNeedsInput}) && (rec.report == None || ReportIs(rec, StNeedsInput))
       case RoleFailed => Attempted(rec, Finished, {OutBlocked, OutFailed}) || Attempted(rec, Crashed, {OutCrashed})
       case RoleReconcile => |rec.attempts| == 1 && rec.attempts[0].state == AttemptReconcile
  }

  lemma RecordMeans(rec: RoleRecord, role: Role, b: RunBinding)
    ensures ValidRole(rec, role, b) <==> RecordTable(rec, role, b)
  {
    hide ValidAttemptBinding, ValidAttemptLifecycle, OwnAttempt;
    if |rec.attempts| == 1 {
      assert rec.attempts[0] in rec.attempts;
      AttemptMeans(rec.attempts[0], role, b);
    }
    match rec.report {
      case None =>
      case Some(_) =>
    }
  }

  // ---------------------------------------------------------------- the run

  predicate Done(rec: RoleRecord) {
    && rec.state == Completed && ReportIs(rec, StComplete) && rec.attempts != []
    && match rec.attempts[|rec.attempts| - 1].cleanup
       case None => false
       case Some(c) => c.state == CleanupComplete
  }

  predicate NotYet(r: Run) {
    r.candidate == None && r.applyOutbox.state == Held
  }

  /** How far the roles are in each phase, and what there is of a candidate and its application. */
  predicate PhaseTable(r: Run) {
    match r.phase
    case PhasePo => NotYet(r) && r.roles.ba.state == r.roles.qa.state == r.roles.dev.state == Pending && r.condition != RunCanceled
    case PhaseBa => NotYet(r) && Done(r.roles.po) && r.roles.qa.state == r.roles.dev.state == Pending && r.condition != RunCanceled
    case PhaseChallenge => NotYet(r) && Done(r.roles.po) && Done(r.roles.ba) && r.condition != RunCanceled
    case PhaseSynthesis => NotYet(r) && AllDone(r.roles) && r.condition != RunCanceled
    case PhaseReview => r.candidate != None && AllDone(r.roles) && r.condition != RunCanceled
    case PhaseApplied => r.candidate != None && r.applyOutbox.state == ApplyApplied && AllDone(r.roles) && r.condition != RunCanceled
    case PhaseClosed => r.applyOutbox.state in {Held, Abandoned} && r.condition in {RunCanceled, OffCourse, RunFailed, Reconciling}
  }

  predicate AllDone(t: RoleTable) {
    Done(t.po) && Done(t.ba) && Done(t.qa) && Done(t.dev)
  }

  /** An active run has nothing in its way; for any other condition there is a reason, and something it is about. */
  predicate ConditionTable(r: Run) {
    match r.condition
    case Active => r.blocker == ""
    case ResourceWait => r.blocker != ""
    case AwaitingInput => r.blocker != "" && (r.synthesisBlocker != None || exists role: Role :: r.roles.Get(role).state == RoleNeedsInput)
    case Reconciling => r.blocker != "" && (r.applyOutbox.state == ApplyReconcile || exists role: Role :: r.roles.Get(role).state == RoleReconcile)
    case RunFailed => r.blocker != "" && exists role: Role :: r.roles.Get(role).state == RoleFailed
    case OffCourse => r.blocker != ""
    case RunCanceled => r.blocker != ""
  }

  /** The application: nothing while held, and for a claimed candidate what became of it. */
  predicate OutboxTable(o: ApplyOutbox, candidate: Option<Candidate>) {
    && (match o.appliedPlanRevision case None => true case Some(n) => n >= 1)
    && (if o.state == Held then o.candidateDigest == None && o.claimId == "" && o.claimedAt == None
        else o.claimId != "" && o.claimedAt != None && match candidate case None => false case Some(c) => o.candidateDigest == Some(c.digest))
    && match o.state
       case Held => Unapplied(o) && !o.receiptAbsent && o.error == ""
       case ApplyClaimed => Unapplied(o) && !o.receiptAbsent && o.error == ""
       case ApplyReconcile => !o.receiptAbsent && o.error != ""
       case Abandoned => Unapplied(o) && o.receiptAbsent && o.error != ""
       case ApplyApplied => o.appliedPlanRevision != None && o.appliedPlanDigest != None && o.appliedAt != None && !o.receiptAbsent && o.error == ""
  }

  predicate Unapplied(o: ApplyOutbox) {
    o.appliedPlanRevision == None && o.appliedPlanDigest == None && o.appliedAt == None
  }

  /** A failed synthesis is remembered with its reason, once four complete reports are there, and stops the run. */
  predicate BlockerTable(r: Run) {
    match r.synthesisBlocker
    case None => true
    case Some(b) =>
      && b.code in {PlanningCandidateInvalid, PlanningCandidateUnchanged, PlanningCandidateTooLarge} && b.reason != ""
      && r.candidate == None && r.condition != Active && r.phase in {PhaseChallenge, PhaseSynthesis, PhaseClosed}
      && forall role: Role :: ReportIs(r.roles.Get(role), StComplete)
  }

  lemma ReportMeans(rec: RoleRecord)
    ensures ReportComplete(rec) <==> ReportIs(rec, StComplete)
  {
  }

  lemma DoneMeans(rec: RoleRecord)
    ensures CompletedAndCleaned(rec) <==> Done(rec)
  {
  }

  lemma PhaseMeans(r: Run)
    ensures PhaseLifecycle(r) <==> PhaseTable(r)
  {
    hide CompletedAndCleaned, Done;
    DoneMeans(r.roles.po);
    DoneMeans(r.roles.ba);
    DoneMeans(r.roles.qa);
    DoneMeans(r.roles.dev);
  }

  lemma RolesAre(t: RoleTable, s: RoleState)
    ensures SomeRole(t, s) <==> exists role: Role :: t.Get(role).state == s
  {
    assert t.Get(PO) == t.po && t.Get(BA) == t.ba && t.Get(QA) == t.qa && t.Get(DEV) == t.dev;
  }

  lemma ConditionMeans(r: Run)
    ensures ConditionLifecycle(r) <==> ConditionTable(r)
  {
    hide SomeRole;
    RolesAre(r.roles, RoleNeedsInput);
    RolesAre(r.roles, RoleFailed);
    RolesAre(r.roles, RoleReconcile);
  }

  lemma OutboxMeans(o: ApplyOutbox, candidate: Option<Candidate>)
    ensures ValidOutbox(o, candidate) <==> OutboxTable(o, candidate)
  {
  }

  lemma BlockerMeans(r: Run)
    ensures ValidSynthesisBlocker(r) <==> BlockerTable(r)
  {
    hide ReportComplete, ReportIs;
    var t := r.roles;
    assert t.Get(PO) == t.po && t.Get(BA) == t.ba && t.Get(QA) == t.qa && t.Get(DEV) == t.dev;
    ReportMeans(t.po);
    ReportMeans(t.ba);
    ReportMeans(t.qa);
    ReportMeans(t.dev);
  }

  /** The receipts of continuations: at most twelve, six of a kind, in order, each for its own operation and cleanup claim. */
  predicate ReceiptsTable(receipts: seq<Receipt>, revision: int) {
    && |receipts| <= 12 && CountKind(receipts, ResourceRetry) <= 6 && CountKind(receipts, CleanupOnly) <= 6
    && (forall i :: 0 <= i < |receipts| ==>
          && receipts[i].operationId != "" && receipts[i].requestedStoreRevision >= 0 && 1 <= receipts[i].requestedRunRevision < revision
          && (if receipts[i].kind == ResourceRetry then receipts[i].attemptId == "" && receipts[i].claimId == "" && receipts[i].recoveryOutcome == NoRecovery
              else receipts[i].attemptId != "" && receipts[i].claimId != "" && receipts[i].recoveryOutcome != WorkerAbsent))
    && (forall i, j :: 0 <= i < j < |receipts| ==> receipts[i].authorizedAt <= receipts[j].authorizedAt)
    && (forall i, j :: 0 <= i < j < |receipts| ==> receipts[i].operationId != receipts[j].operationId)
    && (forall i, j :: 0 <= i < j < |receipts| && receipts[i].kind == receipts[j].kind == CleanupOnly ==>
          receipts[i].role != receipts[j].role || receipts[i].attemptId != receipts[j].attemptId || receipts[i].claimId != receipts[j].claimId)
  }

  lemma ReceiptsMean(receipts: seq<Receipt>, revision: int)
    ensures ValidReceipts(receipts, revision) <==> ReceiptsTable(receipts, revision)
  {
    hide CountKind;
    if ValidReceipts(receipts, revision) {
      forall i | 0 <= i < |receipts| ensures ValidReceipt(receipts[i], revision) {
        assert receipts[i] in receipts;
      }
    }
  }

  /** What a stored run is: one that these tables describe. */
  predicate StoredRun(r: Run) {
    && r.revision >= 1 && r.createdAt <= r.updatedAt && ValidSourcePlan(r.sourcePlan)
    && r.planId == r.sourcePlan.def.id && r.planRevision == r.sourcePlan.revision && r.planDigest == r.sourcePlan.def
    && (forall role: Role :: RecordTable(r.roles.Get(role), role, BindingOf(r)))
    && (match r.candidate
        case None => true
        case Some(c) => BuildCandidate(r, c.compiledAt) == Ok(c))
    && OutboxTable(r.applyOutbox, r.candidate) && BlockerTable(r) && ReceiptsTable(r.receipts, r.revision)
    && PhaseTable(r) && ConditionTable(r)
  }

  lemma RolesMean(t: RoleTable, b: RunBinding)
    ensures ValidRoles(t, b) <==> forall role: Role :: RecordTable(t.Get(role), role, b)
  {
    hide ValidRole, RecordTable;
    forall role: Role ensures ValidRole(t.Get(role), role, b) <==> RecordTable(t.Get(role), role, b) {
      RecordMeans(t.Get(role), role, b);
    }
    assert t.Get(PO) == t.po && t.Get(BA) == t.ba && t.Get(QA) == t.qa && t.Get(DEV) == t.dev;
  }

  /** The validator accepts exactly the runs in which every lease, stop request, cleanup, attempt and role, the
      application, the receipts, the phase and the condition hold what their states call for. */
  lemma ValidMeans(r: Run)
    ensures ValidRun(r) <==> StoredRun(r)
  {
    hide ValidSourcePlan, ValidRoles, RecordTable, BuildCandidate, ValidOutbox, OutboxTable, ValidSynthesisBlocker, BlockerTable, ValidReceipts,
      ReceiptsTable, PhaseLifecycle, PhaseTable, ConditionLifecycle, ConditionTable;
    RolesMean(r.roles, BindingOf(r));
    OutboxMeans(r.applyOutbox, r.candidate);
    BlockerMeans(r);
    ReceiptsMean(r.receipts, r.revision);
    PhaseMeans(r);
    ConditionMeans(r);
  }
}

