/** Steps whose changed copy the validator accepts, for a run on its way through the roles. */
module PlanningAcceptance {
  import opened Wrappers
  import opened PlanningRuns
  import opened PlanningSteps
  import opened PlanningPaths
  import Bound = PlanningBound
  import Safety = PlanningSafety
  import Liveness = PlanningLiveness
  import Refusals = PlanningRefusals

  // ---------------------------------------------------------------- accepted copies

  /** A valid run on the way through its roles, last changed at this time. */
  predicate Working(r: Run, at: int) {
    ValidRun(r) && r.updatedAt == at && r.phase in {PhasePo, PhaseBa, PhaseChallenge} && r.synthesisBlocker.None?
  }

  /** States that no condition of the run refers to. */
  predicate Quiet(s: RoleState) {
    s !in {RoleNeedsInput, RoleFailed, RoleReconcile}
  }

  lemma WorkingFacts(r: Run, at: int)
    requires Working(r, at)
    ensures ConditionLifecycle(r) && PhaseLifecycle(r) && r.condition != RunCanceled && r.candidate.None?
    ensures r.applyOutbox.state == Held && ValidOutbox(r.applyOutbox, None) && ValidReceipts(r.receipts, r.revision + 1)
  {
    hide ValidSourcePlan, ValidRoles, BuildCandidate, ValidReceipts, CompletedAndCleaned;
    Liveness.LaterReceipts(r.receipts, r.revision);
  }

  /** A changed copy in which the role record is replaced is accepted. */
  lemma ReplacedWorking(r: Run, role: Role, m: Run, at: int)
    requires Working(r, at) && Refusals.RoleReplaced(r, role, m) && m.condition != RunCanceled && m.synthesisBlocker.None?
    requires ValidRole(m.roles.Get(role), role, BindingOf(r)) && ValidReceipts(m.receipts, r.revision + 1) && ConditionLifecycle(m)
    ensures Working(Stamped(m, at), at)
  {
    hide ValidRun, ValidRole, CompletedAndCleaned, ValidReceipts;
    Refusals.ReplacedValid(r, role, m, at);
  }

  lemma Performs(r: Run, s: Step, m: Run, at: int)
    requires Working(r, at) && Mutated(r, s, at) == Ok(m) && Working(Stamped(m, at), at)
    ensures Perform(r, s, at) == Ok(Stamped(m, at))
  {
    hide ValidRun, Mutated;
  }

  lemma LocalCopy(r: Run, s: Step, role: Role, rec': RoleRecord, at: int)
    requires LocalStep(s) && !s.CompleteCleanup? && (s.RecoverCleanup? ==> r.condition in {Reconciling, OffCourse})
    requires RoleOf(s) == Some(role) && LocalEffect(r.roles.Get(role), s, at) == Ok(rec')
    ensures Mutated(r, s, at) == Ok(WithRole(r, role, rec'))
  {
    hide BlamingMutation, SpawnMutation, RecordReportStep, WaitMutation, RetryMutation, ContinueMutation, CompileStep, ClaimApplyStep, AppliedStep, ReconcileApplyStep, AbandonStep, OffCourseStep, CancelStep;
    hide LocalEffect;
  }

  lemma QuietCondition(r: Run, role: Role, rec': RoleRecord)
    requires ConditionLifecycle(r)
    requires rec'.state == r.roles.Get(role).state || (Quiet(rec'.state) && Quiet(r.roles.Get(role).state))
    ensures ConditionLifecycle(WithRole(r, role, rec'))
  {
    Bound.GetWith(r.roles, role, rec');
  }

  lemma LocalAccepted(r: Run, s: Step, role: Role, rec': RoleRecord, at: int)
    requires Working(r, at) && LocalStep(s) && !s.CompleteCleanup? && (s.RecoverCleanup? ==> r.condition in {Reconciling, OffCourse})
    requires RoleOf(s) == Some(role) && LocalEffect(r.roles.Get(role), s, at) == Ok(rec') && ValidRole(rec', role, BindingOf(r))
    requires r.roles.Get(role).state != Pending && !CompletedAndCleaned(r.roles.Get(role))
    requires rec'.state == r.roles.Get(role).state || (Quiet(rec'.state) && Quiet(r.roles.Get(role).state))
    ensures Perform(r, s, at) == Ok(Stamped(WithRole(r, role, rec'), at)) && Working(Stamped(WithRole(r, role, rec'), at), at)
  {
    hide ValidRun, ValidRole, CompletedAndCleaned, ValidReceipts, LocalEffect, ConditionLifecycle, Mutated, Perform;
    WorkingFacts(r, at);
    Bound.GetWith(r.roles, role, rec');
    QuietCondition(r, role, rec');
    ReplacedWorking(r, role, WithRole(r, role, rec'), at);
    LocalCopy(r, s, role, rec', at);
    Performs(r, s, WithRole(r, role, rec'), at);
  }

  function Blamed(r: Run, role: Role, rec': RoleRecord, condition: Condition): Run {
    WithRole(r, role, rec').(condition := condition, blocker := LOST)
  }

  lemma BlamedCopy(r: Run, s: Step, role: Role, rec': RoleRecord, at: int)
    requires (s.RecordCrash? || s.RequireCleanupReconcile?) && BlameReason(s) == LOST && RoleOf(s) == Some(role)
    requires LocalEffect(r.roles.Get(role), s, at) == Ok(rec') && r.condition != OffCourse
    ensures Mutated(r, s, at) == Ok(Blamed(r, role, rec', if s.RecordCrash? then RunFailed else Reconciling))
  {
    hide LocalMutation, SpawnMutation, RecordReportStep, WaitMutation, RetryMutation, ContinueMutation, CompileStep, ClaimApplyStep, AppliedStep, ReconcileApplyStep, AbandonStep, OffCourseStep, CancelStep;
    hide LocalEffect;
  }

  lemma BlamedLifecycle(r: Run, role: Role, rec': RoleRecord, condition: Condition)
    requires (condition == RunFailed && rec'.state == RoleFailed) || (condition == Reconciling && rec'.state == RoleReconcile)
    ensures ConditionLifecycle(Blamed(r, role, rec', condition))
  {
    Bound.GetWith(r.roles, role, rec');
  }

  lemma BlamingAccepted(r: Run, s: Step, role: Role, rec': RoleRecord, at: int)
    requires Working(r, at) && r.condition != OffCourse
    requires (s.RecordCrash? || s.RequireCleanupReconcile?) && BlameReason(s) == LOST && RoleOf(s) == Some(role)
    requires LocalEffect(r.roles.Get(role), s, at) == Ok(rec') && ValidRole(rec', role, BindingOf(r))
    requires r.roles.Get(role).state != Pending && !CompletedAndCleaned(r.roles.Get(role))
    requires rec'.state == if s.RecordCrash? then RoleFailed else RoleReconcile
    ensures var next := Stamped(Blamed(r, role, rec', if s.RecordCrash? then RunFailed else Reconciling), at);
            Perform(r, s, at) == Ok(next) && Working(next, at)
  {
    hide ValidRun, ValidRole, CompletedAndCleaned, ValidReceipts, LocalEffect, ConditionLifecycle, Mutated, Perform;
    WorkingFacts(r, at);
    Bound.GetWith(r.roles, role, rec');
    var m := Blamed(r, role, rec', if s.RecordCrash? then RunFailed else Reconciling);
    BlamedLifecycle(r, role, rec', if s.RecordCrash? then RunFailed else Reconciling);
    ReplacedWorking(r, role, m, at);
    BlamedCopy(r, s, role, rec', at);
    Performs(r, s, m, at);
  }

  // ---------------------------------------------------------------- waits and receipts

  /** What the receipts of the run are: so many retries, and continuations for the first claims of QA and DEV. */
  predicate ReceiptsSo(r: Run, retries: int, qa: int, dev: int) {
    && CountKind(r.receipts, ResourceRetry) == retries && CountKind(r.receipts, CleanupOnly) == qa + dev
    && |r.receipts| == retries + qa + dev
    && forall y :: y in r.receipts ==>
         && |y.operationId| <= 7 + |r.receipts| && y.authorizedAt <= r.updatedAt
         && (y.kind == CleanupOnly ==>
               || (y.role == QA && exists k: nat :: k < qa && y.claimId == ClaimId(k))
               || (y.role == DEV && exists k: nat :: k < dev && y.claimId == ClaimId(k)))
  }

  /** An operation id longer than those before it. */
  function FreshId(r: Run): string {
    Bound.Wide('x', |r.receipts| + 8)
  }

  lemma IdleValid(r: Run, m: Run, at: int)
    requires Working(r, at) && m == r.(condition := m.condition, blocker := m.blocker, receipts := m.receipts)
    requires m.condition in {Active, ResourceWait} && (m.condition == Active <==> m.blocker == "") && ValidReceipts(m.receipts, r.revision + 1)
    ensures Working(Stamped(m, at), at)
  {
    hide ValidSourcePlan, ValidRoles, BuildCandidate, ValidReceipts, CompletedAndCleaned;
    WorkingFacts(r, at);
  }

  lemma WaitAccepted(r: Run, role: Role, at: int)
    requires Working(r, at) && Eligible(r, role) && r.condition == Active
    ensures var next := Stamped(r.(condition := ResourceWait, blocker := LOST), at);
            Perform(r, WaitForResources(role, LOST), at) == Ok(next) && Working(next, at)
  {
    hide ValidRun, ValidReceipts, Mutated, Perform, PhaseLifecycle;
    WorkingFacts(r, at);
    var m := r.(condition := ResourceWait, blocker := LOST);
    IdleValid(r, m, at);
    WaitCopy(r, role, at);
    Performs(r, WaitForResources(role, LOST), m, at);
  }

  lemma WaitCopy(r: Run, role: Role, at: int)
    requires Eligible(r, role) && r.condition == Active
    ensures Mutated(r, WaitForResources(role, LOST), at) == Ok(r.(condition := ResourceWait, blocker := LOST))
  {
    hide LocalMutation, BlamingMutation, SpawnMutation, RecordReportStep, RetryMutation, ContinueMutation, CompileStep, ClaimApplyStep, AppliedStep, ReconcileApplyStep, AbandonStep, OffCourseStep, CancelStep;
  }

  /** One more receipt of this kind. */
  lemma ReceiptAdded(receipts: seq<Receipt>, x: Receipt, revision: int)
    requires ValidReceipts(receipts, revision) && ValidReceipt(x, revision)
    requires |receipts| < MAX_RECEIPTS && CountKind(receipts, x.kind) < MAX_RECEIPTS_PER_KIND
    requires forall y :: y in receipts ==>
               y.authorizedAt <= x.authorizedAt && y.operationId != x.operationId && !(y.kind == CleanupOnly && SameIntent(y, x))
    ensures ValidReceipts(receipts + [x], revision)
    ensures CountKind(receipts + [x], ResourceRetry) == CountKind(receipts, ResourceRetry) + (if x.kind == ResourceRetry then 1 else 0)
    ensures CountKind(receipts + [x], CleanupOnly) == CountKind(receipts, CleanupOnly) + (if x.kind == CleanupOnly then 1 else 0)
  {
    hide CountKind;
    Bound.CountPush(receipts, x, ResourceRetry);
    Bound.CountPush(receipts, x, CleanupOnly);
  }

  function RetryStep(r: Run, role: Role): Step {
    RetryResources(FreshId(r), role, 0, r.revision)
  }

  function Retried(r: Run, role: Role, at: int): Run {
    r.(condition := Active, blocker := "", receipts := r.receipts + [ReceiptOf(RetryStep(r, role), at)])
  }

  lemma RetryAccepted(r: Run, role: Role, n: nat, at: int)
    requires Working(r, at) && Eligible(r, role) && r.condition == ResourceWait && ReceiptsSo(r, n, 0, 0) && n < 6
    ensures var next := Stamped(Retried(r, role, at), at);
            Perform(r, RetryStep(r, role), at) == Ok(next) && Working(next, at) && ReceiptsSo(next, n + 1, 0, 0)
  {
    hide ValidRun, ValidReceipts, Mutated, Perform, CountKind, PhaseLifecycle;
    WorkingFacts(r, at);
    var x, m := ReceiptOf(RetryStep(r, role), at), Retried(r, role, at);
    assert |x.operationId| == n + 8;
    assert r.revision >= 1 by { PositiveRevision(r); }
    ReceiptAdded(r.receipts, x, r.revision + 1);
    IdleValid(r, m, at);
    RetryCopy(r, role, n, at);
    Performs(r, RetryStep(r, role), m, at);
  }

  lemma PositiveRevision(r: Run)
    requires ValidRun(r)
    ensures r.revision >= 1
  {
    hide ValidSourcePlan, ValidRoles, ValidCandidate, ValidOutbox, ValidSynthesisBlocker, ValidReceipts, PhaseLifecycle, ConditionLifecycle;
  }

  lemma RetryCopy(r: Run, role: Role, n: nat, at: int)
    requires Eligible(r, role) && r.condition == ResourceWait && ReceiptsSo(r, n, 0, 0) && n < 6
    ensures Mutated(r, RetryStep(r, role), at) == Ok(Retried(r, role, at))
  {
    hide LocalMutation, BlamingMutation, SpawnMutation, RecordReportStep, WaitMutation, ContinueMutation, CompileStep, ClaimApplyStep, AppliedStep, ReconcileApplyStep, AbandonStep, OffCourseStep, CancelStep;
    hide CountKind;
    assert |FreshId(r)| == n + 8;
  }

  // ---------------------------------------------------------------- claiming, keeping a claim, reporting, advancing

  function SpawnStep(r: Run, role: Role, d: InputDigest, at: int): Step {
    ClaimSpawn(role, ATTEMPT, BindingFor(BindingOf(r), role, d, at))
  }

  function SpawnedRole(r: Run, role: Role, d: InputDigest, at: int): RoleRecord {
    OneAttempt(SpawnClaimed, d, SpawnedAttempt(BindingOf(r), role, d, at))
  }

  function Spawned(r: Run, role: Role, d: InputDigest, at: int): Run {
    WithRole(r, role, SpawnedRole(r, role, d, at)).(condition := Active, blocker := "")
  }

  lemma SpawnedPhase(r: Run, role: Role, rec: RoleRecord)
    requires PhaseLifecycle(r) && Eligible(r, role) && r.phase != PhaseClosed && r.candidate.None? && rec.state == SpawnClaimed
    requires r.condition != RunCanceled
    ensures PhaseLifecycle(WithRole(r, role, rec).(condition := Active, blocker := ""))
  {
    hide ReportComplete;
    Bound.GetWith(r.roles, role, rec);
  }

  lemma SpawnedWorking(r: Run, role: Role, d: InputDigest, at: int)
    requires Working(r, at) && Eligible(r, role)
    ensures Working(Stamped(Spawned(r, role, d, at), at), at)
  {
    hide ValidSourcePlan, ValidRole, BuildCandidate, ValidReceipts, PhaseLifecycle, CompletedAndCleaned, SpawnedRole;
    WorkingFacts(r, at);
    assert SpawnedRole(r, role, d, at).state == SpawnClaimed && ValidRole(SpawnedRole(r, role, d, at), role, BindingOf(r)) by {
      SpawnedRoleValid(r, role, d, at);
    }
    Bound.GetWith(r.roles, role, SpawnedRole(r, role, d, at));
    SpawnedPhase(r, role, SpawnedRole(r, role, d, at));
    var next := Stamped(Spawned(r, role, d, at), at);
    assert ValidRoles(next.roles, BindingOf(next));
    assert PhaseLifecycle(next) by { StampedPhase(Spawned(r, role, d, at), at); }
  }

  lemma SpawnedRoleValid(r: Run, role: Role, d: InputDigest, at: int)
    ensures SpawnedRole(r, role, d, at).state == SpawnClaimed && ValidRole(SpawnedRole(r, role, d, at), role, BindingOf(r))
  {
    hide ValidRole, SpawnedAttempt, BindingFor, SpawnRole;
    SpawnedValid(role, BindingOf(r), d, at);
  }

  lemma StampedPhase(m: Run, at: int)
    ensures PhaseLifecycle(Stamped(m, at)) <==> PhaseLifecycle(m)
  {
    hide CompletedAndCleaned;
  }

  lemma SpawnCopy(r: Run, role: Role, d: InputDigest, at: int)
    requires Eligible(r, role) && RoleInputDigest(r, role) == Ok(d) && r.roles.Get(role) == EMPTY_ROLE
    ensures Mutated(r, SpawnStep(r, role, d, at), at) == Ok(Spawned(r, role, d, at))
  {
    hide LocalMutation, BlamingMutation, RecordReportStep, WaitMutation, RetryMutation, ContinueMutation, CompileStep, ClaimApplyStep, AppliedStep, ReconcileApplyStep, AbandonStep, OffCourseStep, CancelStep;
    hide RoleInputDigest, SpawnRole, Eligible, ValidRole, SpawnedAttempt, BindingFor;
    SpawnedValid(role, BindingOf(r), d, at);
  }

  lemma PendingIsEmpty(r: Run, role: Role)
    requires ValidRun(r) && r.roles.Get(role).state == Pending
    ensures r.roles.Get(role) == EMPTY_ROLE
  {
    hide ValidRun, ValidAttemptBinding, ValidAttemptLifecycle;
    Safety.ValidGet(r, role);
  }

  lemma SpawnAccepted(r: Run, role: Role, d: InputDigest, at: int)
    requires Working(r, at) && Eligible(r, role) && RoleInputDigest(r, role) == Ok(d)
    ensures var next := Stamped(Spawned(r, role, d, at), at); Perform(r, SpawnStep(r, role, d, at), at) == Ok(next) && Working(next, at)
  {
    hide ValidRun, Mutated, Perform, RoleInputDigest, Spawned, SpawnStep;
    PendingIsEmpty(r, role);
    SpawnedWorking(r, role, d, at);
    SpawnCopy(r, role, d, at);
    Performs(r, SpawnStep(r, role, d, at), Spawned(r, role, d, at), at);
  }

  function KeepStep(r: Run, role: Role, n: int): Step {
    ContinueCleanup(FreshId(r), role, ATTEMPT, ClaimId(n), NoRecovery, 0, r.revision)
  }

  function Kept(r: Run, role: Role, n: int, at: int): Run {
    r.(receipts := r.receipts + [ReceiptOf(KeepStep(r, role, n), at)])
  }

  /** How many claims of the role have been continued. */
  function Claims(role: Role, qa: int, dev: int): int {
    if role == QA then qa else dev
  }

  lemma KeepIntent(r: Run, role: Role, n: nat, retries: nat, qa: nat, dev: nat, at: int)
    requires ReceiptsSo(r, retries, qa, dev) && role in {QA, DEV} && Claims(role, qa, dev) == n <= 2
    ensures var x := ReceiptOf(KeepStep(r, role, n), at);
            forall y :: y in r.receipts ==> y.operationId != x.operationId && !(y.kind == CleanupOnly && SameIntent(y, x)) && !(x.kind == CleanupOnly && SameIntent(x, y))
  {
    hide CountKind, ClaimId;
    DistinctClaims();
    assert |FreshId(r)| == |r.receipts| + 8;
  }

  lemma KeepReceipts(r: Run, role: Role, n: nat, retries: nat, qa: nat, dev: nat, at: int)
    requires ReceiptsSo(r, retries, qa, dev) && role in {QA, DEV} && Claims(role, qa, dev) == n <= 2 && r.updatedAt <= at
    ensures ReceiptsSo(Stamped(Kept(r, role, n, at), at), retries, if role == QA then qa + 1 else qa, if role == DEV then dev + 1 else dev)
  {
    hide CountKind, ClaimId;
    var x := ReceiptOf(KeepStep(r, role, n), at);
    Bound.CountPush(r.receipts, x, ResourceRetry);
    Bound.CountPush(r.receipts, x, CleanupOnly);
    assert |FreshId(r)| == |r.receipts| + 8;
  }

  lemma KeepCopy(r: Run, role: Role, n: nat, retries: nat, qa: nat, dev: nat, b: RunBinding, at: int)
    requires ReceiptsSo(r, retries, qa, dev) && role in {QA, DEV} && Claims(role, qa, dev) == n <= 2 && qa + dev < 6 && retries <= 6
    requires Ended(r.roles.Get(role), role, b, ClaimedCleanup(n, at))
    ensures Mutated(r, KeepStep(r, role, n), at) == Ok(Kept(r, role, n, at))
  {
    hide LocalMutation, BlamingMutation, SpawnMutation, RecordReportStep, WaitMutation, RetryMutation, CompileStep, ClaimApplyStep, AppliedStep, ReconcileApplyStep, AbandonStep, OffCourseStep, CancelStep;
    hide CountKind, ValidRole, ReceiptsSo;
    assert |r.receipts| < MAX_RECEIPTS && CountKind(r.receipts, CleanupOnly) < MAX_RECEIPTS_PER_KIND by { Counts(r, retries, qa, dev); }
    KeepIntent(r, role, n, retries, qa, dev, at);
    NonEmptyClaim(n);
    assert |FreshId(r)| > 0;
    assert r.roles.With(role, r.roles.Get(role)) == r.roles;
  }

  lemma Counts(r: Run, retries: nat, qa: nat, dev: nat)
    requires ReceiptsSo(r, retries, qa, dev)
    ensures |r.receipts| == retries + qa + dev && CountKind(r.receipts, CleanupOnly) == qa + dev
  {
    hide CountKind;
  }

  lemma KeepAccepted(r: Run, role: Role, n: nat, retries: nat, qa: nat, dev: nat, at: int)
    requires Working(r, at) && ReceiptsSo(r, retries, qa, dev) && role in {QA, DEV} && Claims(role, qa, dev) == n <= 2
    requires qa + dev < 6 && retries <= 6 && Ended(r.roles.Get(role), role, BindingOf(r), ClaimedCleanup(n, at))
    ensures var next := Stamped(Kept(r, role, n, at), at);
            && Perform(r, KeepStep(r, role, n), at) == Ok(next) && Working(next, at)
            && ReceiptsSo(next, retries, if role == QA then qa + 1 else qa, if role == DEV then dev + 1 else dev)
  {
    hide ValidRun, ValidRole, ValidReceipts, Mutated, Perform, CountKind, ReceiptsSo, CompletedAndCleaned;
    WorkingFacts(r, at);
    var x, m := ReceiptOf(KeepStep(r, role, n), at), Kept(r, role, n, at);
    KeepIntent(r, role, n, retries, qa, dev, at);
    KeepReceipts(r, role, n, retries, qa, dev, at);
    Counts(r, retries, qa, dev);
    PositiveRevision(r);
    assert forall y :: y in r.receipts ==> y.authorizedAt <= at by { ReceiptTimes(r, retries, qa, dev); }
    NonEmptyClaim(n);
    assert |FreshId(r)| > 0;
    ReceiptAdded(r.receipts, x, r.revision + 1);
    EndedOpen(r.roles.Get(role), role, BindingOf(r), n, at);
    assert m.roles.With(role, m.roles.Get(role)) == r.roles;
    Safety.ValidGet(r, role);
    ReplacedWorking(r, role, m, at);
    KeepCopy(r, role, n, retries, qa, dev, BindingOf(r), at);
    Performs(r, KeepStep(r, role, n), m, at);
  }

  lemma ReceiptTimes(r: Run, retries: nat, qa: nat, dev: nat)
    requires ReceiptsSo(r, retries, qa, dev)
    ensures forall y :: y in r.receipts ==> y.authorizedAt <= r.updatedAt
  {
    hide CountKind, ClaimId;
  }

  lemma EndedOpen(rec: RoleRecord, role: Role, b: RunBinding, n: nat, at: int)
    requires Ended(rec, role, b, ClaimedCleanup(n, at))
    ensures rec.state != Pending && !CompletedAndCleaned(rec)
  {
    hide ValidAttemptBinding, ValidAttemptLifecycle;
  }

  /** Six long challenges. */
  function Challenges(): (challenges: seq<string>)
    ensures |challenges| == 6
  {
    seq(6, i requires 0 <= i < 6 => ["ABCDEF"[i]] + Bound.Wide('\U{672c}', 740))
  }

  /** A complete report with an empty artifact. */
  function ReportOn(r: Run, role: Role, d: InputDigest): Report {
    Report(r.id, r.planId, r.planRevision, role, ATTEMPT, d, StComplete,
           match role
           case PO => ArtPo(Bound.EMPTY_PO)
           case BA => ArtBa(Bound.EMPTY_BA)
           case QA => ArtQa(Bound.EMPTY_QA)
           case DEV => ArtDev(Bound.EMPTY_DEV), Challenges(), [])
  }

  function ReportStep(r: Run, role: Role, d: InputDigest): Step {
    RecordReport(role, ATTEMPT, ReportOn(r, role, d), ReportOn(r, role, d), true, true)
  }

  function SubmittedRole(b: RunBinding, role: Role, d: InputDigest, at: int): RoleRecord {
    OneAttempt(Dispatched, d, SubmittedAttempt(b, role, d, at))
  }

  /** The role once its report is in. */
  function ReportedRole(r: Run, role: Role, d: InputDigest, at: int): Result<RoleRecord> {
    ReportRole(SubmittedRole(BindingOf(r), role, d, at), role, BindingOf(r), ATTEMPT, ReportOn(r, role, d), ReportOn(r, role, d), at)
  }

  function ReportedRecord(r: Run, role: Role, d: InputDigest, at: int): RoleRecord {
    var reported := ReportedRole(r, role, d, at);
    if reported.Ok? then reported.value else EMPTY_ROLE
  }

  /** A complete report is in, and the worker is still to be cleaned up. */
  predicate AwaitsCleanup(rec: RoleRecord) {
    && rec.state == Completed && |rec.attempts| == 1 && rec.attempts[0].id == ATTEMPT && rec.attempts[0].state == Finished
    && rec.attempts[0].cleanup == Some(PENDING_CLEANUP) && rec.report.Some?
  }

  lemma ReportExpected(r: Run, role: Role, d: InputDigest, at: int)
    ensures ReportedRole(r, role, d, at) == Ok(ReportedRecord(r, role, d, at)) && AwaitsCleanup(ReportedRecord(r, role, d, at))
  {
    hide ClaimedLease, BoundLease, BindingFor, DispatchFor;
  }

  lemma ReportedEnded(r: Run, role: Role, d: InputDigest, at: int)
    ensures ReportedRole(r, role, d, at) == Ok(ReportedRecord(r, role, d, at))
    ensures Ended(ReportedRecord(r, role, d, at), role, BindingOf(r), PENDING_CLEANUP)
    ensures ReportedRecord(r, role, d, at).state == Completed && ReportComplete(ReportedRecord(r, role, d, at))
  {
    hide ValidRole, SubmittedAttempt, ReportRole, DispatchedAttempt;
    ReportExpected(r, role, d, at);
    SubmittedValid(role, BindingOf(r), d, at);
    Refusals.RecordedValid(SubmittedRole(BindingOf(r), role, d, at), role, BindingOf(r), ATTEMPT, ReportOn(r, role, d), ReportOn(r, role, d), at,
                           ReportedRecord(r, role, d, at));
  }

  lemma ReportAccepted(r: Run, role: Role, d: InputDigest, at: int)
    requires Working(r, at) && r.condition == Active
    requires r.roles.Get(role) == SubmittedRole(BindingOf(r), role, d, at)
    requires role in {QA, DEV} ==> !Refusals.TrialFails(r, role, ReportedRecord(r, role, d, at), true, at)
    ensures var next := Stamped(Refusals.Untried(r, role, ReportedRecord(r, role, d, at)), at);
            Perform(r, ReportStep(r, role, d), at) == Ok(next) && Working(next, at) && next.condition == Active
  {
    hide ValidRun, ReportRole, ReportedRole, ReportedRecord, Mutated, Perform, SubmittedRole, Refusals.Untried,
      ReportOn, Refusals.TrialFails, ValidRole;
    ReportedEnded(r, role, d, at);
    var s, rec := ReportStep(r, role, d), ReportedRecord(r, role, d, at);
    UntriedCopy(r, role, d, at);
    SubmittedState(BindingOf(r), role, d, at);
    assert ValidRole(rec, role, BindingOf(r)) by { EndedValid(rec, role, BindingOf(r), PENDING_CLEANUP); }
    Refusals.UntriedValid(r, role, rec, at);
    UntriedSame(r, role, rec, at);
    Performs(r, s, Refusals.Untried(r, role, rec), at);
  }

  lemma SubmittedState(b: RunBinding, role: Role, d: InputDigest, at: int)
    ensures SubmittedRole(b, role, d, at).state == Dispatched
  {
    hide SubmittedAttempt;
  }

  lemma EndedValid(rec: RoleRecord, role: Role, b: RunBinding, c: Cleanup)
    requires Ended(rec, role, b, c)
    ensures ValidRole(rec, role, b)
  {
    hide ValidRole;
  }

  lemma UntriedSame(r: Run, role: Role, rec: RoleRecord, at: int)
    requires r.condition == Active
    ensures var next := Stamped(Refusals.Untried(r, role, rec), at);
            next.condition == Active && next.phase == r.phase && next.synthesisBlocker == r.synthesisBlocker && next.updatedAt == at
  {
  }

  /** Only the reports of QA and DEV are tried out. */
  lemma NoTrial(r: Run, role: Role, recorded: RoleRecord, at: int)
    ensures role in {PO, BA} ==> !Refusals.TrialFails(r, role, recorded, true, at)
  {
    hide BuildCandidate;
  }

  lemma UntriedCopy(r: Run, role: Role, d: InputDigest, at: int)
    requires r.roles.Get(role) == SubmittedRole(BindingOf(r), role, d, at)
    requires role in {QA, DEV} ==> !Refusals.TrialFails(r, role, ReportedRecord(r, role, d, at), true, at)
    requires ReportedRole(r, role, d, at) == Ok(ReportedRecord(r, role, d, at)) && ReportedRecord(r, role, d, at).report.Some?
    ensures Mutated(r, ReportStep(r, role, d), at) == Ok(Refusals.Untried(r, role, ReportedRecord(r, role, d, at)))
  {
    hide LocalMutation, BlamingMutation, SpawnMutation, RecordReportStep, WaitMutation, RetryMutation, ContinueMutation,
      CompileStep, ClaimApplyStep, AppliedStep, ReconcileApplyStep, AbandonStep, OffCourseStep, CancelStep;
    hide ReportRole, SubmittedRole, Refusals.Untried, BuildCandidate, Refusals.TrialFails;
    NoTrial(r, role, ReportedRecord(r, role, d, at), at);
    Refusals.ReportedCopy(r, role, ATTEMPT, ReportOn(r, role, d), ReportOn(r, role, d), true, true, at, ReportedRecord(r, role, d, at));
  }

  // ---------------------------------------------------------------- the last cleanup of a phase

  function AfterPhase(role: Role): RunPhase {
    if role == PO then PhaseBa else PhaseChallenge
  }

  function Advanced(r: Run, role: Role, rec: RoleRecord): Run {
    WithRole(r, role, rec).(phase := AfterPhase(role))
  }

  lemma AdvanceCopy(r: Run, role: Role, rec: RoleRecord, at: int)
    requires (role == PO && r.phase == PhasePo) || (role == BA && r.phase == PhaseBa)
    requires r.condition == Active && CompleteCleanupRole(r.roles.Get(role), ATTEMPT, at) == Ok(rec) && CompletedAndCleaned(rec)
    ensures Mutated(r, CompleteCleanup(role, ATTEMPT), at) == Ok(Advanced(r, role, rec))
  {
    hide BlamingMutation, SpawnMutation, RecordReportStep, WaitMutation, RetryMutation, ContinueMutation,
      CompileStep, ClaimApplyStep, AppliedStep, ReconcileApplyStep, AbandonStep, OffCourseStep, CancelStep;
    hide CompleteCleanupRole, CompletedAndCleaned;
    Bound.GetWith(r.roles, role, rec);
  }

  lemma AdvancedWorking(r: Run, role: Role, rec: RoleRecord, at: int)
    requires Working(r, at) && ((role == PO && r.phase == PhasePo) || (role == BA && r.phase == PhaseBa))
    requires r.condition == Active && ValidRole(rec, role, BindingOf(r)) && CompletedAndCleaned(rec) && r.roles.Get(role).state != Pending
    ensures Working(Stamped(Advanced(r, role, rec), at), at)
  {
    hide ValidSourcePlan, ValidRole, BuildCandidate, ValidReceipts, CompletedAndCleaned;
    WorkingFacts(r, at);
    Bound.GetWith(r.roles, role, rec);
    var next := Stamped(Advanced(r, role, rec), at);
    assert ValidRoles(next.roles, BindingOf(next));
  }

  lemma AdvanceAccepted(r: Run, role: Role, rec: RoleRecord, at: int)
    requires Working(r, at) && ((role == PO && r.phase == PhasePo) || (role == BA && r.phase == PhaseBa))
    requires r.condition == Active && CompleteCleanupRole(r.roles.Get(role), ATTEMPT, at) == Ok(rec)
    requires ValidRole(rec, role, BindingOf(r)) && CompletedAndCleaned(rec) && r.roles.Get(role).state != Pending
    ensures var next := Stamped(Advanced(r, role, rec), at); Perform(r, CompleteCleanup(role, ATTEMPT), at) == Ok(next) && Working(next, at)
  {
    hide *;
    AdvanceCopy(r, role, rec, at);
    AdvancedWorking(r, role, rec, at);
    Performs(r, CompleteCleanup(role, ATTEMPT), Advanced(r, role, rec), at);
  }
}
