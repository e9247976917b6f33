/** The bound on the length of a Planning Run is attained, by an execution of 70 accepted steps. */
module PlanningLongest {
  import opened Wrappers
  import opened PlanningRuns
  import opened PlanningSteps
  import opened PlanningPaths
  import opened PlanningAcceptance
  import opened PlanningLight
  import PlanningLimits
  import PlanningSizes
  import PlanningWide
  import Bound = PlanningBound
  import Length = PlanningLength
  import Safety = PlanningSafety
  import Liveness = PlanningLiveness
  import Refusals = PlanningRefusals

  /** A run reached by n steps within the limits, all of them at the time of its creation. */
  ghost predicate On(o: Origin, events: seq<Event>, r: Run, n: int) {
    Reaches(o, events, r) && |events| == n && Working(r, o.at) && o.at == 0 && Within(o, events, r) && Light(r)
  }

  lemma Take(o: Origin, events: seq<Event>, r: Run, n: nat, s: Step, next: Run) returns (more: seq<Event>)
    requires On(o, events, r, n) && Perform(r, s, o.at) == Ok(next) && Working(next, o.at) && Light(next)
    requires s.RecordReport? ==> forall m: PlanningSizes.Measures :: PlanningLimits.SizesRight(m, r, s, o.at)
    ensures On(o, more, next, n + 1)
  {
    hide Reaches, Perform, Working, Within, Light, PlanningLimits.SizesRight;
    more := events + [Event(s, o.at)];
    Liveness.Extend(o, events, r, Event(s, o.at), next);
    LightStep(o, events, r, Event(s, o.at), next);
  }

  lemma OnWorking(o: Origin, events: seq<Event>, r: Run, n: nat)
    requires On(o, events, r, n)
    ensures Working(r, o.at) && r.updatedAt == o.at == 0 && Reaches(o, events, r) && |events| == n && Light(r) && Within(o, events, r)
  {
    hide Reaches, ValidRun, Within, Light;
  }

  /** Only this role record changed, apart from condition and receipts. */
  predicate RoleOnly(r: Run, role: Role, next: Run) {
    && next.roles == r.roles.With(role, next.roles.Get(role)) && next.phase == r.phase
    && BindingOf(next) == BindingOf(r) && next.sourcePlan == r.sourcePlan && next.updatedAt == r.updatedAt
  }

  lemma RoleOnlyTwice(r: Run, role: Role, middle: Run, next: Run)
    requires RoleOnly(r, role, middle) && RoleOnly(middle, role, next)
    ensures RoleOnly(r, role, next)
  {
  }

  lemma WithRoleOnly(r: Run, role: Role, rec: RoleRecord, at: int)
    requires r.updatedAt == at
    ensures var next := Stamped(WithRole(r, role, rec), at);
            RoleOnly(r, role, next) && next.roles.Get(role) == rec && next.condition == r.condition && next.receipts == r.receipts
  {
    Bound.GetWith(r.roles, role, rec);
  }

  lemma SameReceipts(r: Run, next: Run, retries: nat, qa: nat, dev: nat)
    requires ReceiptsSo(r, retries, qa, dev) && next.receipts == r.receipts && next.updatedAt == r.updatedAt
    ensures ReceiptsSo(next, retries, qa, dev)
  {
    hide CountKind, ClaimId;
  }

  // ---------------------------------------------------------------- from the claim to the submission

  lemma Work(o: Origin, events: seq<Event>, r: Run, n: nat, role: Role, d: InputDigest) returns (more: seq<Event>, next: Run)
    requires On(o, events, r, n) && r.roles.Get(role) == OneAttempt(SpawnClaimed, d, SpawnedAttempt(BindingOf(r), role, d, o.at))
    ensures On(o, more, next, n + 3) && RoleOnly(r, role, next) && next.condition == r.condition && next.receipts == r.receipts
    ensures next.roles.Get(role) == SubmittedRole(BindingOf(r), role, d, o.at)
  {
    hide On, Perform, ValidRole, RoleOnly, SpawnedAttempt, BoundAttempt, DispatchedAttempt, SubmittedAttempt, BindingFor, ClaimedLease, DispatchFor,
      BindRole, DispatchRole, SubmitRole, Slim, Reaches, Working, Within, Light, PlanningWide.Plain;
    var b := BindingOf(r);
    OnWorking(o, events, r, n);
    Started();
    EarlySlim(SpawnClaimed, b, role, d, o.at);
    EarlySlim(DispatchClaimed, b, role, d, o.at);
    EarlySlim(Dispatched, b, role, d, o.at);
    BoundValid(role, b, d, o.at);
    var m1, r1 := LocalStepTaken(o, events, r, n, BindLease(role, ATTEMPT, Liveness.RefOf(ClaimedLease(b, role, d, o.at)), PANE), role,
                                 OneAttempt(SpawnClaimed, d, BoundAttempt(b, role, d, o.at)));
    assert BindingOf(r1) == b by { SameBinding(r, role, r1); }
    DispatchedValid(role, b, d, o.at);
    var m2, r2 := LocalStepTaken(o, m1, r1, n + 1, ClaimDispatch(role, ATTEMPT, BindingFor(b, role, d, o.at).leaseId, DispatchFor(b, role, d, o.at)), role,
                                 OneAttempt(DispatchClaimed, d, DispatchedAttempt(b, role, d, o.at)));
    assert BindingOf(r2) == b by { SameBinding(r1, role, r2); }
    SubmittedValid(role, b, d, o.at);
    more, next := LocalStepTaken(o, m2, r2, n + 2, MarkDispatched(role, ATTEMPT), role, OneAttempt(Dispatched, d, SubmittedAttempt(b, role, d, o.at)));
    RoleOnlyTwice(r, role, r1, r2);
    RoleOnlyTwice(r, role, r2, next);
  }

  lemma Started()
    ensures PlanningWide.Plain(0)
  {
  }

  lemma SameBinding(r: Run, role: Role, next: Run)
    requires RoleOnly(r, role, next)
    ensures BindingOf(next) == BindingOf(r) && next.phase == r.phase && next.sourcePlan == r.sourcePlan && next.updatedAt == r.updatedAt
  {
  }

  /** One accepted step on a role record that stays quiet or keeps its state. */
  lemma LocalStepTaken(o: Origin, events: seq<Event>, r: Run, n: nat, s: Step, role: Role, rec': RoleRecord)
    returns (more: seq<Event>, next: Run)
    requires On(o, events, r, n) && LocalStep(s) && !s.CompleteCleanup? && (s.RecoverCleanup? ==> r.condition in {Reconciling, OffCourse})
    requires RoleOf(s) == Some(role) && LocalEffect(r.roles.Get(role), s, o.at) == Ok(rec') && ValidRole(rec', role, BindingOf(r))
    requires r.roles.Get(role).state != Pending && !CompletedAndCleaned(r.roles.Get(role))
    requires rec'.state == r.roles.Get(role).state || (Quiet(rec'.state) && Quiet(r.roles.Get(role).state))
    requires Slim(rec') && rec'.report == r.roles.Get(role).report
    ensures On(o, more, next, n + 1) && RoleOnly(r, role, next) && next.condition == r.condition && next.receipts == r.receipts
    ensures next.roles.Get(role) == rec'
  {
    hide *;
    OnWorking(o, events, r, n);
    LocalAccepted(r, s, role, rec', o.at);
    next := Stamped(WithRole(r, role, rec'), o.at);
    WithRoleOnly(r, role, rec', o.at);
    LightRole(r, role);
    LocalLight(r, role, rec', next, o.at);
    NotReport(s);
    more := Take(o, events, r, n, s, next);
  }

  lemma NotReport(s: Step)
    requires LocalStep(s)
    ensures !s.RecordReport?
  {
  }

  lemma LocalLight(r: Run, role: Role, rec: RoleRecord, next: Run, at: int)
    requires Light(r) && next == Stamped(WithRole(r, role, rec), at) && Slim(rec) && rec.report == r.roles.Get(role).report
    ensures Light(next)
  {
    hide Light, Slim;
    LightRole(r, role);
    RoleStepLight(r, role, rec, next);
  }

  // ---------------------------------------------------------------- waiting and claiming

  /** The role is next to be claimed in an active run. */
  predicate Next(r: Run, role: Role) {
    Eligible(r, role) && r.condition == Active
  }

  lemma Idle(o: Origin, events: seq<Event>, r: Run, n: nat, role: Role, k: nat) returns (more: seq<Event>, next: Run)
    requires On(o, events, r, n) && Next(r, role) && ReceiptsSo(r, k, 0, 0) && k < 6
    ensures On(o, more, next, n + 2) && Next(next, role) && ReceiptsSo(next, k + 1, 0, 0)
    ensures next.roles == r.roles && next.phase == r.phase && BindingOf(next) == BindingOf(r) && next.sourcePlan == r.sourcePlan
  {
    hide On, Perform, Working, ReceiptsSo, Reaches, FreshId, Light, SlimReceipt, Within;
    OnWorking(o, events, r, n);
    WaitAccepted(r, role, o.at);
    var waiting := Stamped(r.(condition := ResourceWait, blocker := LOST), o.at);
    WaitingLight(r, waiting, o.at);
    var m := Take(o, events, r, n, WaitForResources(role, LOST), waiting);
    SameReceipts(r, waiting, k, 0, 0);
    RetryAccepted(waiting, role, k, o.at);
    next := Stamped(Retried(waiting, role, o.at), o.at);
    OnWorking(o, m, waiting, n + 1);
    ReachedFew(o, m, waiting);
    StepReceiptsSlim(waiting, role, 0, o.at);
    IdleStepLight(waiting, [ReceiptOf(RetryStep(waiting, role), o.at)], next);
    more := Take(o, m, waiting, n + 1, RetryStep(waiting, role), next);
  }

  lemma WaitingLight(r: Run, waiting: Run, at: int)
    requires Light(r) && waiting == Stamped(r.(condition := ResourceWait, blocker := LOST), at)
    ensures Light(waiting)
  {
    hide Light;
    assert r.receipts + [] == r.receipts;
    IdleStepLight(r, [], waiting);
  }

  /** Six waits, each ended by a retry. */
  lemma {:induction false} Idles(o: Origin, events: seq<Event>, r: Run, n: nat, role: Role, k: nat) returns (more: seq<Event>, next: Run)
    requires On(o, events, r, n) && Next(r, role) && ReceiptsSo(r, k, 0, 0) && k <= 6
    ensures On(o, more, next, n + 2 * (6 - k)) && Next(next, role) && ReceiptsSo(next, 6, 0, 0)
    ensures next.roles == r.roles && next.phase == r.phase && BindingOf(next) == BindingOf(r) && next.sourcePlan == r.sourcePlan
    decreases 6 - k
  {
    hide On, ReceiptsSo, Next;
    if k == 6 {
      more, next := events, r;
    } else {
      var m, middle := Idle(o, events, r, n, role, k);
      more, next := Idles(o, m, middle, n + 2, role, k + 1);
    }
  }

  /** The input of a role depends on roles, identity and plan alone. */
  lemma SameInput(r: Run, next: Run, role: Role)
    requires next.roles == r.roles && BindingOf(next) == BindingOf(r) && next.sourcePlan == r.sourcePlan
    ensures RoleInputDigest(next, role) == RoleInputDigest(r, role)
  {
  }

  /** A wait that is ended by claiming the role. */
  lemma Start(o: Origin, events: seq<Event>, r: Run, n: nat, role: Role, d: InputDigest) returns (more: seq<Event>, next: Run)
    requires On(o, events, r, n) && Next(r, role) && RoleInputDigest(r, role) == Ok(d)
    ensures On(o, more, next, n + 2) && RoleOnly(r, role, next) && next.condition == Active && next.receipts == r.receipts
    ensures next.roles.Get(role) == OneAttempt(SpawnClaimed, d, SpawnedAttempt(BindingOf(r), role, d, o.at))
  {
    hide On, Perform, Working, SpawnedAttempt, RoleInputDigest, Reaches, BindingFor, Light, Slim, Within, PlanningWide.Plain;
    OnWorking(o, events, r, n);
    WaitAccepted(r, role, o.at);
    var waiting := Stamped(r.(condition := ResourceWait, blocker := LOST), o.at);
    WaitingLight(r, waiting, o.at);
    var m := Take(o, events, r, n, WaitForResources(role, LOST), waiting);
    SameInput(r, waiting, role);
    SpawnAccepted(waiting, role, d, o.at);
    next := Stamped(Spawned(waiting, role, d, o.at), o.at);
    Started();
    EarlySlim(SpawnClaimed, BindingOf(waiting), role, d, o.at);
    RoleStepLight(waiting, role, SpawnedRole(waiting, role, d, o.at), next);
    Bound.GetWith(r.roles, role, SpawnedRole(waiting, role, d, o.at));
    more := Take(o, m, waiting, n + 1, SpawnStep(waiting, role, d, o.at), next);
  }

  // ---------------------------------------------------------------- PO and BA, on the plain path

  /** One step on the cleanup of an ended attempt, the role keeping its state. */
  lemma CleanupStepTaken(o: Origin, events: seq<Event>, r: Run, n: nat, s: Step, role: Role, c: Cleanup, c': Cleanup)
    returns (more: seq<Event>, next: Run)
    requires On(o, events, r, n) && (s.ClaimCleanup? || s.SendCleanup? || s.RecoverCleanup?) && RoleOf(s) == Some(role)
    requires s.RecoverCleanup? ==> r.condition in {Reconciling, OffCourse}
    requires Ended(r.roles.Get(role), role, BindingOf(r), c) && c.state != CleanupComplete
    requires LocalEffect(r.roles.Get(role), s, o.at) == Ok(Recleaned(r.roles.Get(role), c'))
    requires Ended(Recleaned(r.roles.Get(role), c'), role, BindingOf(r), c') && PlanningSizes.CleanupBytes(c') <= 2000
    ensures On(o, more, next, n + 1) && RoleOnly(r, role, next) && next.condition == r.condition && next.receipts == r.receipts
    ensures Ended(next.roles.Get(role), role, BindingOf(next), c') && next.roles.Get(role).state == r.roles.Get(role).state
    ensures next.roles.Get(role).report == r.roles.Get(role).report
  {
    hide On, ValidRole, LocalEffect, Slim, Light, Reaches, Working, Within, PlanningSizes.CleanupBytes;
    var rec := r.roles.Get(role);
    OnWorking(o, events, r, n);
    LightRole(r, role);
    CleanedSlim(rec, c');
    EndedUnfinished(rec, role, BindingOf(r), c);
    more, next := LocalStepTaken(o, events, r, n, s, role, Recleaned(rec, c'));
  }

  lemma EndedUnfinished(rec: RoleRecord, role: Role, b: RunBinding, c: Cleanup)
    requires Ended(rec, role, b, c)
    ensures rec.state != Pending && (c.state != CleanupComplete ==> !CompletedAndCleaned(rec))
  {
    hide ValidAttemptBinding, ValidAttemptLifecycle;
  }

  lemma ClaimAndSend(o: Origin, events: seq<Event>, r: Run, n: nat, role: Role) returns (more: seq<Event>, next: Run)
    requires On(o, events, r, n) && Ended(r.roles.Get(role), role, BindingOf(r), PENDING_CLEANUP)
    ensures On(o, more, next, n + 2) && RoleOnly(r, role, next) && next.condition == r.condition && next.receipts == r.receipts
    ensures Ended(next.roles.Get(role), role, BindingOf(next), SentCleanup(0, o.at))
    ensures next.roles.Get(role).state == r.roles.Get(role).state && next.roles.Get(role).report == r.roles.Get(role).report
  {
    hide *;
    var m, claimed := Claim(o, events, r, n, role);
    more, next := Send(o, m, claimed, n + 1, role, 0);
    RoleOnlyTwice(r, role, claimed, next);
  }

  lemma Claim(o: Origin, events: seq<Event>, r: Run, n: nat, role: Role) returns (more: seq<Event>, next: Run)
    requires On(o, events, r, n) && Ended(r.roles.Get(role), role, BindingOf(r), PENDING_CLEANUP)
    ensures On(o, more, next, n + 1) && RoleOnly(r, role, next) && next.condition == r.condition && next.receipts == r.receipts
    ensures Ended(next.roles.Get(role), role, BindingOf(next), ClaimedCleanup(0, o.at))
    ensures next.roles.Get(role).state == r.roles.Get(role).state && next.roles.Get(role).report == r.roles.Get(role).report
  {
    hide PlanningSizes.CleanupBytes, On, ValidRole, RoleOnly, LocalEffect, ClaimCleanupRole, WithCleanup;
    CleanupsSmall(0, o.at);
    ClaimMoves(r.roles.Get(role), role, BindingOf(r), o.at);
    Liveness.EffectOf(r.roles.Get(role), ClaimCleanup(role, ATTEMPT, ClaimId(0)), o.at);
    more, next := CleanupStepTaken(o, events, r, n, ClaimCleanup(role, ATTEMPT, ClaimId(0)), role, PENDING_CLEANUP, ClaimedCleanup(0, o.at));
  }

  lemma Send(o: Origin, events: seq<Event>, r: Run, n: nat, role: Role, k: nat) returns (more: seq<Event>, next: Run)
    requires On(o, events, r, n) && k <= 2 && Ended(r.roles.Get(role), role, BindingOf(r), ClaimedCleanup(k, o.at))
    ensures On(o, more, next, n + 1) && RoleOnly(r, role, next) && next.condition == r.condition && next.receipts == r.receipts
    ensures Ended(next.roles.Get(role), role, BindingOf(next), SentCleanup(k, o.at))
    ensures next.roles.Get(role).state == r.roles.Get(role).state && next.roles.Get(role).report == r.roles.Get(role).report
  {
    hide PlanningSizes.CleanupBytes, On, ValidRole, RoleOnly, LocalEffect, SendCleanupRole, WithCleanup, ClaimId, PlanningPaths.History;
    CleanupsSmall(k, o.at);
    SendMoves(r.roles.Get(role), role, BindingOf(r), k, o.at);
    Liveness.EffectOf(r.roles.Get(role), SendCleanup(role, ATTEMPT), o.at);
    more, next := CleanupStepTaken(o, events, r, n, SendCleanup(role, ATTEMPT), role, ClaimedCleanup(k, o.at), SentCleanup(k, o.at));
  }

  /** PO or BA from waiting to be claimed to the next phase: one wait and eight steps. */
  lemma PlainPath(o: Origin, events: seq<Event>, r: Run, n: nat, role: Role, d: InputDigest) returns (more: seq<Event>, next: Run)
    requires On(o, events, r, n) && Next(r, role) && RoleInputDigest(r, role) == Ok(d)
    requires (role == PO && r.phase == PhasePo) || (role == BA && r.phase == PhaseBa)
    ensures On(o, more, next, n + 9) && next.phase == AfterPhase(role) && next.condition == Active && next.receipts == r.receipts
    ensures next.roles == r.roles.With(role, next.roles.Get(role)) && CompletedAndCleaned(next.roles.Get(role))
    ensures BindingOf(next) == BindingOf(r) && next.sourcePlan == r.sourcePlan && next.updatedAt == r.updatedAt
  {
    hide On, Next, RoleInputDigest, Ended, RoleOnly, SubmittedRole, CompletedAndCleaned, SpawnedAttempt;
    var m1, started := Start(o, events, r, n, role, d);
    var m2, working := WorkOn(o, m1, r, started, n + 2, role, d);
    var m3, reported := Report(o, m2, working, n + 5, role, d);
    var m4, sent := ClaimAndSend(o, m3, reported, n + 6, role);
    RoleOnlyTwice(r, role, working, reported);
    RoleOnlyTwice(r, role, reported, sent);
    SameBinding(r, role, sent);
    more, next := Advance(o, m4, sent, n + 8, role);
    WithTwice(r, role, sent, next);
  }

  lemma WorkOn(o: Origin, events: seq<Event>, r: Run, started: Run, n: nat, role: Role, d: InputDigest) returns (more: seq<Event>, next: Run)
    requires On(o, events, started, n) && RoleOnly(r, role, started)
    requires started.roles.Get(role) == OneAttempt(SpawnClaimed, d, SpawnedAttempt(BindingOf(r), role, d, o.at))
    ensures On(o, more, next, n + 3) && RoleOnly(r, role, next) && next.condition == started.condition && next.receipts == started.receipts
    ensures next.roles.Get(role) == SubmittedRole(BindingOf(next), role, d, o.at) && next.phase == r.phase
  {
    hide On, SubmittedRole, SpawnedAttempt;
    more, next := Work(o, events, started, n, role, d);
    RoleOnlyTwice(r, role, started, next);
  }

  lemma WithTwice(r: Run, role: Role, middle: Run, next: Run)
    requires RoleOnly(r, role, middle) && next.roles == middle.roles.With(role, next.roles.Get(role))
    ensures next.roles == r.roles.With(role, next.roles.Get(role))
  {
  }

  lemma Report(o: Origin, events: seq<Event>, r: Run, n: nat, role: Role, d: InputDigest) returns (more: seq<Event>, next: Run)
    requires On(o, events, r, n) && role in {PO, BA} && r.condition == Active
    requires r.roles.Get(role) == SubmittedRole(BindingOf(r), role, d, o.at)
    ensures On(o, more, next, n + 1) && RoleOnly(r, role, next) && next.condition == Active && next.receipts == r.receipts
    ensures Ended(next.roles.Get(role), role, BindingOf(next), PENDING_CLEANUP)
    ensures next.roles.Get(role).state == Completed && ReportComplete(next.roles.Get(role))
  {
    hide On, Perform, Working, SubmittedRole, ReportedRole, ReportedRecord, ReportStep, Ended, ReportComplete,
      Reaches, Refusals.TrialFails, Slim, Light, Within, PlanningLimits.SizesRight, PlanningWide.Plain;
    OnWorking(o, events, r, n);
    LightRole(r, role);
    Started();
    assert r.blocker == "" by { NoBlocker(r, o.at); }
    ReportSizes(r, role, d);
    DoneSlim(r, role, d, o.at);
    ReportAccepted(r, role, d, o.at);
    ReportedEnded(r, role, d, o.at);
    next := Stamped(Refusals.Untried(r, role, ReportedRecord(r, role, d, o.at)), o.at);
    Bound.GetWith(r.roles, role, ReportedRecord(r, role, d, o.at));
    RoleStepLight(r, role, ReportedRecord(r, role, d, o.at), next);
    more := Take(o, events, r, n, ReportStep(r, role, d), next);
  }

  lemma NoBlocker(r: Run, at: int)
    requires Working(r, at) && r.condition == Active
    ensures r.blocker == ""
  {
    hide ValidSourcePlan, ValidRoles, ValidCandidate, ValidOutbox, ValidSynthesisBlocker, ValidReceipts, PhaseLifecycle;
  }

  lemma Advance(o: Origin, events: seq<Event>, r: Run, n: nat, role: Role) returns (more: seq<Event>, next: Run)
    requires On(o, events, r, n) && ((role == PO && r.phase == PhasePo) || (role == BA && r.phase == PhaseBa)) && r.condition == Active
    requires Ended(r.roles.Get(role), role, BindingOf(r), SentCleanup(0, o.at))
    requires r.roles.Get(role).state == Completed && ReportComplete(r.roles.Get(role))
    ensures On(o, more, next, n + 1) && next.phase == AfterPhase(role) && next.condition == Active && next.receipts == r.receipts
    ensures next.roles == r.roles.With(role, next.roles.Get(role)) && CompletedAndCleaned(next.roles.Get(role))
    ensures BindingOf(next) == BindingOf(r) && next.sourcePlan == r.sourcePlan && next.updatedAt == r.updatedAt
  {
    hide On, Perform, Working, ValidRole, CompleteCleanupRole, Reaches, Slim, Light, Within, PlanningSizes.CleanupBytes;
    OnWorking(o, events, r, n);
    LightRole(r, role);
    var rec := r.roles.Get(role);
    CleanupsSmall(0, o.at);
    CleanedSlim(rec, CompletedCleanup(o.at));
    CompleteMoves(rec, role, BindingOf(r), o.at);
    var rec' := Recleaned(rec, CompletedCleanup(o.at));
    AdvanceAccepted(r, role, rec', o.at);
    next := Stamped(Advanced(r, role, rec'), o.at);
    Bound.GetWith(r.roles, role, rec');
    RoleStepLight(r, role, rec', next);
    more := Take(o, events, r, n, CompleteCleanup(role, ATTEMPT), next);
  }

  // ---------------------------------------------------------------- QA and DEV, on the longest path

  lemma Crash(o: Origin, events: seq<Event>, r: Run, n: nat, role: Role, d: InputDigest) returns (more: seq<Event>, next: Run)
    requires On(o, events, r, n) && r.condition != OffCourse && r.roles.Get(role) == SubmittedRole(BindingOf(r), role, d, o.at)
    ensures On(o, more, next, n + 1) && RoleOnly(r, role, next) && next.condition == RunFailed && next.receipts == r.receipts
    ensures Ended(next.roles.Get(role), role, BindingOf(next), PENDING_CLEANUP)
  {
    hide On, Perform, Working, UnreportedRole, LocalEffect, CompletedAndCleaned, ValidRole, SubmittedRole, Ended, Reaches, Slim, Light, Within;
    OnWorking(o, events, r, n);
    LightRole(r, role);
    var rec, s := r.roles.Get(role), RecordCrash(role, ATTEMPT, LOST);
    Liveness.EffectOf(rec, s, o.at);
    var rec' := SubmittedCrash(BindingOf(r), role, d, o.at);
    EndedValid(rec', role, BindingOf(r), PENDING_CLEANUP);
    CrashedSlim(rec, o.at, rec');
    BlamingAccepted(r, s, role, rec', o.at);
    next := Stamped(Blamed(r, role, rec', RunFailed), o.at);
    Bound.GetWith(r.roles, role, rec');
    RoleStepLight(r, role, rec', next);
    more := Take(o, events, r, n, s, next);
  }

  lemma SubmittedCrash(b: RunBinding, role: Role, d: InputDigest, at: int) returns (rec': RoleRecord)
    ensures var rec := SubmittedRole(b, role, d, at);
            && UnreportedRole(rec, ATTEMPT, OutCrashed, LOST, at) == Ok(rec') && rec.state != Pending && !CompletedAndCleaned(rec)
    ensures rec'.state == RoleFailed && Ended(rec', role, b, PENDING_CLEANUP)
  {
    hide ValidRole, BindingFor, ClaimedLease, BoundLease, DispatchFor;
    SubmittedValid(role, b, d, at);
    rec' := Refusals.AtWorkEnds(SubmittedRole(b, role, d, at), role, b, ATTEMPT, OutCrashed, LOST, at);
  }

  /** The claim is continued, which changes no role. */
  lemma Keep(o: Origin, events: seq<Event>, r: Run, n: nat, role: Role, k: nat, retries: nat, qa: nat, dev: nat) returns (more: seq<Event>, next: Run)
    requires On(o, events, r, n) && role in {QA, DEV} && Claims(role, qa, dev) == k <= 2 && qa + dev < 6 && retries <= 6
    requires ReceiptsSo(r, retries, qa, dev) && Ended(r.roles.Get(role), role, BindingOf(r), ClaimedCleanup(k, o.at))
    ensures On(o, more, next, n + 1) && RoleOnly(r, role, next) && next.roles == r.roles && next.condition == r.condition
    ensures ReceiptsSo(next, retries, if role == QA then qa + 1 else qa, if role == DEV then dev + 1 else dev)
  {
    hide On, Perform, Working, Ended, ReceiptsSo, Reaches, FreshId, ClaimId, Light, SlimReceipt, Within;
    OnWorking(o, events, r, n);
    ReachedFew(o, events, r);
    LightRole(r, role);
    StepReceiptsSlim(r, role, k, o.at);
    KeepAccepted(r, role, k, retries, qa, dev, o.at);
    next := Stamped(Kept(r, role, k, o.at), o.at);
    IdleStepLight(r, [ReceiptOf(KeepStep(r, role, k), o.at)], next);
    assert r.roles.With(role, r.roles.Get(role)) == r.roles;
    more := Take(o, events, r, n, KeepStep(r, role, k), next);
  }

  lemma Doubt(o: Origin, events: seq<Event>, r: Run, n: nat, role: Role, k: nat) returns (more: seq<Event>, next: Run)
    requires On(o, events, r, n) && k <= 2 && r.condition != OffCourse && Ended(r.roles.Get(role), role, BindingOf(r), SentCleanup(k, o.at))
    ensures On(o, more, next, n + 1) && RoleOnly(r, role, next) && next.condition == Reconciling && next.receipts == r.receipts
    ensures Ended(next.roles.Get(role), role, BindingOf(next), DoubtfulCleanup(k, o.at))
    ensures InDoubt(next.roles.Get(role))
  {
    hide On, Perform, Working, ReconcileCleanupRole, LocalEffect, CompletedAndCleaned, ValidRole, Ended, Reaches, DoubtfulRole, SentCleanup,
      DoubtfulCleanup, Slim, Light, Within;
    OnWorking(o, events, r, n);
    LightRole(r, role);
    var rec, s := r.roles.Get(role), RequireCleanupReconcile(role, ATTEMPT, LOST);
    Liveness.EffectOf(rec, s, o.at);
    DoubtMoves(rec, role, BindingOf(r), k, o.at);
    EndedUnfinished(rec, role, BindingOf(r), SentCleanup(k, o.at));
    var rec' := DoubtfulRole(rec, k, o.at);
    EndedValid(rec', role, BindingOf(r), DoubtfulCleanup(k, o.at));
    DoubtedSlim(rec, k, o.at);
    assert SentCleanup(k, o.at).state == CleanupSent by { SentState(k, o.at); }
    BlamingAccepted(r, s, role, rec', o.at);
    next := Stamped(Blamed(r, role, rec', Reconciling), o.at);
    Bound.GetWith(r.roles, role, rec');
    RoleStepLight(r, role, rec', next);
    more := Take(o, events, r, n, s, next);
  }

  lemma SentState(k: int, at: int)
    ensures SentCleanup(k, at).state == CleanupSent
  {
    hide ClaimId, PlanningPaths.History;
  }

  /** A claim is continued, the stop is sent, and its outcome is in doubt. */
  lemma Round(o: Origin, events: seq<Event>, r: Run, n: nat, role: Role, k: nat, retries: nat, qa: nat, dev: nat) returns (more: seq<Event>, next: Run)
    requires On(o, events, r, n) && role in {QA, DEV} && Claims(role, qa, dev) == k <= 2 && qa + dev < 6 && retries <= 6
    requires r.condition != OffCourse
    requires ReceiptsSo(r, retries, qa, dev) && Ended(r.roles.Get(role), role, BindingOf(r), ClaimedCleanup(k, o.at))
    ensures On(o, more, next, n + 3) && RoleOnly(r, role, next) && next.condition == Reconciling
    ensures ReceiptsSo(next, retries, if role == QA then qa + 1 else qa, if role == DEV then dev + 1 else dev)
    ensures Ended(next.roles.Get(role), role, BindingOf(next), DoubtfulCleanup(k, o.at))
    ensures InDoubt(next.roles.Get(role))
  {
    hide *;
    var qa', dev' := if role == QA then qa + 1 else qa, if role == DEV then dev + 1 else dev;
    var m1, kept := Keep(o, events, r, n, role, k, retries, qa, dev);
    SameBinding(r, role, kept);
    var m2, sent := Send(o, m1, kept, n + 1, role, k);
    SameBinding(kept, role, sent);
    SameReceipts(kept, sent, retries, qa', dev');
    more, next := Doubt(o, m2, sent, n + 2, role, k);
    SameBinding(sent, role, next);
    SameReceipts(sent, next, retries, qa', dev');
    RoleOnlyTwice(r, role, kept, sent);
    RoleOnlyTwice(r, role, sent, next);
  }

  lemma Recover(o: Origin, events: seq<Event>, r: Run, n: nat, role: Role, k: nat) returns (more: seq<Event>, next: Run)
    requires On(o, events, r, n) && k <= 1 && r.condition == Reconciling && Ended(r.roles.Get(role), role, BindingOf(r), DoubtfulCleanup(k, o.at))
    requires InDoubt(r.roles.Get(role))
    ensures On(o, more, next, n + 1) && RoleOnly(r, role, next) && next.condition == Reconciling && next.receipts == r.receipts
    ensures Ended(next.roles.Get(role), role, BindingOf(next), ClaimedCleanup(k + 1, o.at))
  {
    hide PlanningSizes.CleanupBytes, On, ValidRole, RoleOnly, LocalEffect, RecoverRole, WithCleanup, ClaimId, PlanningPaths.History;
    CleanupsSmall(k + 1, o.at);
    RecoverMoves(r.roles.Get(role), role, BindingOf(r), k, o.at);
    Liveness.EffectOf(r.roles.Get(role), RecoverCleanup(role, ATTEMPT, ExactWorker, ClaimId(k + 1)), o.at);
    more, next := CleanupStepTaken(o, events, r, n, RecoverCleanup(role, ATTEMPT, ExactWorker, ClaimId(k + 1)), role,
                                   DoubtfulCleanup(k, o.at), ClaimedCleanup(k + 1, o.at));
  }

  lemma Gone(o: Origin, events: seq<Event>, r: Run, n: nat, role: Role) returns (more: seq<Event>, next: Run)
    requires On(o, events, r, n) && r.condition == Reconciling && Ended(r.roles.Get(role), role, BindingOf(r), DoubtfulCleanup(2, o.at))
    requires InDoubt(r.roles.Get(role))
    ensures On(o, more, next, n + 1) && RoleOnly(r, role, next) && next.condition == Reconciling && next.receipts == r.receipts
    ensures Ended(next.roles.Get(role), role, BindingOf(next), GoneCleanup(o.at)) && GoneCleanup(o.at).state == CleanupComplete
  {
    hide PlanningSizes.CleanupBytes, On, ValidRole, RoleOnly, LocalEffect, RecoverRole, WithCleanup, ClaimId, PlanningPaths.History;
    GoneSmall(o.at);
    GoneMoves(r.roles.Get(role), role, BindingOf(r), o.at);
    Liveness.EffectOf(r.roles.Get(role), RecoverCleanup(role, ATTEMPT, WorkerAbsent, ""), o.at);
    more, next := CleanupStepTaken(o, events, r, n, RecoverCleanup(role, ATTEMPT, WorkerAbsent, ""), role,
                                   DoubtfulCleanup(2, o.at), GoneCleanup(o.at));
  }

  /** QA or DEV once claimed: fourteen steps of its own and three continued claims. */
  lemma LongPath(o: Origin, events: seq<Event>, r: Run, n: nat, role: Role, d: InputDigest, retries: nat, qa: nat, dev: nat)
    returns (more: seq<Event>, next: Run)
    requires On(o, events, r, n) && role in {QA, DEV} && Claims(role, qa, dev) == 0 && qa + dev <= 3 && retries <= 6
    requires r.condition != OffCourse && ReceiptsSo(r, retries, qa, dev)
    requires r.roles.Get(role) == OneAttempt(SpawnClaimed, d, SpawnedAttempt(BindingOf(r), role, d, o.at))
    ensures On(o, more, next, n + 17) && RoleOnly(r, role, next) && next.condition == Reconciling
    ensures ReceiptsSo(next, retries, if role == QA then qa + 3 else qa, if role == DEV then dev + 3 else dev)
    ensures Ended(next.roles.Get(role), role, BindingOf(next), GoneCleanup(o.at)) && GoneCleanup(o.at).state == CleanupComplete
  {
    hide On, RoleOnly, ReceiptsSo, Ended, SubmittedRole, SpawnedAttempt, ClaimId, PlanningPaths.History, GoneCleanup;
    var m1, started := UpToClaim(o, events, r, n, role, d);
    SameBinding(r, role, started);
    SameReceipts(r, started, retries, qa, dev);
    var m2, middle := TwoRounds(o, m1, started, n + 5, role, retries, qa, dev);
    SameBinding(started, role, middle);
    RoleOnlyTwice(r, role, started, middle);
    var qa', dev' := if role == QA then qa + 2 else qa, if role == DEV then dev + 2 else dev;
    var m3, last := Round(o, m2, middle, n + 13, role, 2, retries, qa', dev');
    SameBinding(middle, role, last);
    RoleOnlyTwice(r, role, middle, last);
    more, next := Gone(o, m3, last, n + 16, role);
    SameBinding(last, role, next);
    SameReceipts(last, next, retries, if role == QA then qa + 3 else qa, if role == DEV then dev + 3 else dev);
    RoleOnlyTwice(r, role, last, next);
  }

  lemma UpToClaim(o: Origin, events: seq<Event>, r: Run, n: nat, role: Role, d: InputDigest) returns (more: seq<Event>, next: Run)
    requires On(o, events, r, n) && r.condition != OffCourse
    requires r.roles.Get(role) == OneAttempt(SpawnClaimed, d, SpawnedAttempt(BindingOf(r), role, d, o.at))
    ensures On(o, more, next, n + 5) && RoleOnly(r, role, next) && next.condition == RunFailed && next.receipts == r.receipts
    ensures Ended(next.roles.Get(role), role, BindingOf(next), ClaimedCleanup(0, o.at))
  {
    hide *;
    var m1, working := Work(o, events, r, n, role, d);
    SameBinding(r, role, working);
    var m2, crashed := Crash(o, m1, working, n + 3, role, d);
    RoleOnlyTwice(r, role, working, crashed);
    more, next := Claim(o, m2, crashed, n + 4, role);
    RoleOnlyTwice(r, role, crashed, next);
  }

  /** Twice the claim is continued, sent, put in doubt, and recovered. */
  lemma TwoRounds(o: Origin, events: seq<Event>, r: Run, n: nat, role: Role, retries: nat, qa: nat, dev: nat) returns (more: seq<Event>, next: Run)
    requires On(o, events, r, n) && role in {QA, DEV} && Claims(role, qa, dev) == 0 && qa + dev <= 3 && retries <= 6 && r.condition != OffCourse
    requires ReceiptsSo(r, retries, qa, dev) && Ended(r.roles.Get(role), role, BindingOf(r), ClaimedCleanup(0, o.at))
    ensures On(o, more, next, n + 8) && RoleOnly(r, role, next) && next.condition == Reconciling
    ensures ReceiptsSo(next, retries, if role == QA then qa + 2 else qa, if role == DEV then dev + 2 else dev)
    ensures Ended(next.roles.Get(role), role, BindingOf(next), ClaimedCleanup(2, o.at))
  {
    hide On, RoleOnly, ReceiptsSo, Ended, ClaimId, PlanningPaths.History;
    var m1, first := RoundAndRecover(o, events, r, n, role, 0, retries, qa, dev);
    var qa', dev' := if role == QA then qa + 1 else qa, if role == DEV then dev + 1 else dev;
    more, next := RoundAndRecover(o, m1, first, n + 4, role, 1, retries, qa', dev');
    RoleOnlyTwice(r, role, first, next);
  }

  lemma RoundAndRecover(o: Origin, events: seq<Event>, r: Run, n: nat, role: Role, k: nat, retries: nat, qa: nat, dev: nat)
    returns (more: seq<Event>, next: Run)
    requires On(o, events, r, n) && role in {QA, DEV} && Claims(role, qa, dev) == k <= 1 && qa + dev < 6 && retries <= 6
    requires r.condition != OffCourse
    requires ReceiptsSo(r, retries, qa, dev) && Ended(r.roles.Get(role), role, BindingOf(r), ClaimedCleanup(k, o.at))
    ensures On(o, more, next, n + 4) && RoleOnly(r, role, next) && next.condition == Reconciling
    ensures ReceiptsSo(next, retries, if role == QA then qa + 1 else qa, if role == DEV then dev + 1 else dev)
    ensures Ended(next.roles.Get(role), role, BindingOf(next), ClaimedCleanup(k + 1, o.at))
  {
    hide *;
    var m1, doubtful := Round(o, events, r, n, role, k, retries, qa, dev);
    more, next := Recover(o, m1, doubtful, n + 3, role, k);
    SameBinding(doubtful, role, next);
    SameReceipts(doubtful, next, retries, if role == QA then qa + 1 else qa, if role == DEV then dev + 1 else dev);
    RoleOnlyTwice(r, role, doubtful, next);
  }

  // ---------------------------------------------------------------- the whole run

  /** PO and BA are done, QA and DEV are waiting to be claimed. */
  predicate ChallengeOpen(r: Run) {
    && r.phase == PhaseChallenge && r.condition == Active && r.roles.qa == EMPTY_ROLE && r.roles.dev == EMPTY_ROLE
    && ReportComplete(r.roles.po) && ReportComplete(r.roles.ba)
  }

  lemma Created(o: Origin, r: Run)
    requires o == Origin("planning-run-00000001", Bound.PlanOn("request"), 0) && CreateRun(o.id, o.plan, o.at) == Ok(r)
    ensures On(o, [], r, 0) && Next(r, PO) && ReceiptsSo(r, 0, 0, 0) && r.phase == PhasePo
    ensures r.roles == RoleTable(EMPTY_ROLE, EMPTY_ROLE, EMPTY_ROLE, EMPTY_ROLE)
  {
    hide ValidSourcePlan, ValidCandidate, Perform, ValidRun, Light, Within, Bound.PlanOn;
    CreatedLight(o, r);
  }

  lemma InputThere(r: Run, role: Role)
    requires role != PO ==> r.roles.po.report.Some? && r.roles.po.outputDigest.Some?
    requires role in {QA, DEV} ==> r.roles.ba.report.Some? && r.roles.ba.outputDigest.Some?
    ensures RoleInputDigest(r, role).Ok?
  {
  }

  lemma CleanedReport(o: Origin, events: seq<Event>, r: Run, n: nat, role: Role)
    requires On(o, events, r, n) && CompletedAndCleaned(r.roles.Get(role))
    ensures ReportComplete(r.roles.Get(role)) && r.roles.Get(role).report.Some? && r.roles.Get(role).outputDigest.Some?
  {
    hide Reaches, ValidRun, ValidAttemptBinding, ValidAttemptLifecycle, ReportFor, Within, Light;
    Safety.ValidGet(r, role);
  }

  lemma UpToChallenge(o: Origin) returns (events: seq<Event>, r: Run)
    requires o == Origin("planning-run-00000001", Bound.PlanOn("request"), 0) && CreateRun(o.id, o.plan, o.at).Ok?
    ensures On(o, events, r, 30) && ChallengeOpen(r) && ReceiptsSo(r, 6, 0, 0) && RoleInputDigest(r, QA).Ok? && RoleInputDigest(r, DEV).Ok?
  {
    hide Bound.PlanOn, On, CreateRun, ReceiptsSo, CompletedAndCleaned, RoleInputDigest, ReportComplete;
    var created := CreateRun(o.id, o.plan, o.at).value;
    Created(o, created);
    var m1, idled := Idles(o, [], created, 0, PO, 0);
    InputThere(idled, PO);
    var m2, afterPo := PlainPath(o, m1, idled, 12, PO, RoleInputDigest(idled, PO).value);
    UpdatedAt(o, m1, idled, 12, m2, afterPo, 21);
    SameReceipts(idled, afterPo, 6, 0, 0);
    CleanedReport(o, m2, afterPo, 21, PO);
    InputThere(afterPo, BA);
    events, r := PlainPath(o, m2, afterPo, 21, BA, RoleInputDigest(afterPo, BA).value);
    UpdatedAt(o, m2, afterPo, 21, events, r, 30);
    SameReceipts(afterPo, r, 6, 0, 0);
    CleanedReport(o, events, r, 30, BA);
    CleanedReport(o, events, r, 30, PO);
    InputThere(r, QA);
    InputThere(r, DEV);
  }

  lemma UpdatedAt(o: Origin, events: seq<Event>, r: Run, n: nat, more: seq<Event>, next: Run, m: nat)
    requires On(o, events, r, n) && On(o, more, next, m)
    ensures r.updatedAt == next.updatedAt == o.at
  {
    hide Reaches, ValidRun, Within, Light;
  }

  lemma BothClaimed(o: Origin) returns (events: seq<Event>, r: Run, qa: InputDigest, dev: InputDigest)
    requires o == Origin("planning-run-00000001", Bound.PlanOn("request"), 0) && CreateRun(o.id, o.plan, o.at).Ok?
    ensures On(o, events, r, 34) && r.phase == PhaseChallenge && r.condition == Active && ReceiptsSo(r, 6, 0, 0)
    ensures r.roles.qa == OneAttempt(SpawnClaimed, qa, SpawnedAttempt(BindingOf(r), QA, qa, o.at))
    ensures r.roles.dev == OneAttempt(SpawnClaimed, dev, SpawnedAttempt(BindingOf(r), DEV, dev, o.at))
  {
    hide Bound.PlanOn, On, CreateRun, ReceiptsSo, RoleInputDigest, ReportComplete, SpawnedAttempt;
    var m1, open := UpToChallenge(o);
    qa := RoleInputDigest(open, QA).value;
    var m2, first := Start(o, m1, open, 30, QA, qa);
    SameReceipts(open, first, 6, 0, 0);
    SameUpstream(open, first, DEV);
    dev := RoleInputDigest(first, DEV).value;
    events, r := Start(o, m2, first, 32, DEV, dev);
    SameReceipts(first, r, 6, 0, 0);
  }

  /** Inputs depend on nothing a peer does. */
  lemma SameUpstream(r: Run, next: Run, role: Role)
    requires next.roles.po == r.roles.po && next.roles.ba == r.roles.ba && BindingOf(next) == BindingOf(r) && next.sourcePlan == r.sourcePlan
    ensures RoleInputDigest(next, role) == RoleInputDigest(r, role)
  {
  }

  /** A run of 71 steps, create included, none of which comes near the size limits: the bound cannot be improved. */
  lemma LongestRun() returns (o: Origin, events: seq<Event>, r: Run)
    ensures Reaches(o, events, r) && |events| == 70 && r.revision == Bound.LONGEST_RUN == 71
    ensures forall m: PlanningSizes.Measures :: PlanningLimits.ReachesWithin(m, o, events, r)
    ensures r.phase == PhaseClosed && r.condition == RunCanceled
  {
    hide Bound.PlanOn, On, CreateRun, ReceiptsSo, SpawnedAttempt, Reaches, RoleOnly, ValidSourcePlan, Ended,
      GoneCleanup, Perform, ValidRun, Length.Shaped, Length.Potential, Working, Length.Bounded, Light, PlanningSizes.RunBytes,
      PlanningLimits.ReachesWithin;
    var plan := Bound.PlanOn("request");
    Bound.PlannablePlan("request");
    o := Origin("planning-run-00000001", plan, 0);
    Bound.CreateAccepted(o);
    var m1, claimed, qa, dev := BothClaimed(o);
    var m2, first := LongPath(o, m1, claimed, 34, QA, qa, 6, 0, 0);
    SameBinding(claimed, QA, first);
    PeerStays(claimed, QA, first);
    var m3, second := LongPath(o, m2, first, 51, DEV, dev, 6, 3, 0);
    SameBinding(first, DEV, second);
    OnWorking(o, m3, second, 68);
    var e1, left := Liveness.CloseStep(o, m3, second);
    LeavesCourse(second, e1, left);
    var e2, stopped := Liveness.CloseStep(o, m3 + [e1], left);
    SecondBytes(o, m3, second);
    ClosingStep(o, m3, second, e1, left, 200000);
    ClosingStep(o, m3 + [e1], left, e2, stopped, 200402);
    events, r := m3 + [e1] + [e2], stopped;
    Bound.RunLength(o, events, r);
    Length.ValidRunBounded(r);
    Length.PotentialNonNegative(r);
  }

  lemma SecondBytes(o: Origin, events: seq<Event>, r: Run)
    requires Reaches(o, events, r) && Light(r)
    ensures forall m: PlanningSizes.Measures :: PlanningSizes.RunBytes(m, r) <= 200000
  {
    hide Reaches, Light, PlanningSizes.RunBytes;
    ReachedFew(o, events, r);
    forall m: PlanningSizes.Measures ensures PlanningSizes.RunBytes(m, r) <= 200000 {
      LightBytes(m, r);
    }
  }

  lemma PeerStays(r: Run, role: Role, next: Run)
    requires RoleOnly(r, role, next)
    ensures forall other :: other != role ==> next.roles.Get(other) == r.roles.Get(other)
  {
    Bound.GetWith(r.roles, role, next.roles.Get(role));
  }

  lemma LeavesCourse(r: Run, e: Event, next: Run)
    requires r.condition == Reconciling && r.phase == PhaseChallenge && e.step == Liveness.Closing(r) && Perform(r, e.step, e.at) == Ok(next)
    ensures !Terminal(next)
  {
    hide ValidRun, LocalMutation, BlamingMutation, SpawnMutation, RecordReportStep, WaitMutation, RetryMutation, ContinueMutation,
      CompileStep, ClaimApplyStep, AppliedStep, ReconcileApplyStep, AbandonStep, CancelStep;
  }

  // ---------------------------------------------------------------- a refused report

  /** A reachable run in which the report of QA is accepted, until DEV starts waiting for resources: then the
      same report still passes its guard, and the validator refuses it. */
  lemma RefusedReport() returns (o: Origin, events: seq<Event>, before: Run, wait: Event, waiting: Run, s: Step, at: int)
    ensures Reaches(o, events, before) && Reaches(o, events + [wait], waiting) && wait.step.WaitForResources? && wait.step.role == DEV
    ensures s.RecordReport? && s.role == QA && s.report.status == StComplete
    ensures Perform(before, s, at).Ok? && Perform(waiting, s, at).Err?
    ensures ReportRole(waiting.roles.qa, QA, BindingOf(waiting), s.attemptId, s.report, s.outputDigest, at).Ok?
  {
    hide Bound.PlanOn, On, CreateRun, ReceiptsSo, SpawnedAttempt, Reaches, ValidSourcePlan, Perform, ValidRun, RoleInputDigest, SubmittedRole, ReportOn,
      ReportRole, ReportedRole, Working;
    var plan := Bound.PlanOn("request");
    Bound.PlannablePlan("request");
    o := Origin("planning-run-00000001", plan, 0);
    Bound.CreateAccepted(o);
    var m1, open := UpToChallenge(o);
    var d := RoleInputDigest(open, QA).value;
    var m2, claimed := Start(o, m1, open, 30, QA, d);
    events, before := Work(o, m2, claimed, 32, QA, d);
    OnWorking(o, events, before, 35);
    at := o.at;
    s := ReportStep(before, QA, d);
    WaitAccepted(before, DEV, at);
    waiting := Stamped(before.(condition := ResourceWait, blocker := LOST), at);
    wait := Event(WaitForResources(DEV, LOST), at);
    Liveness.Extend(o, events, before, wait, waiting);
    ReportGuard(before, waiting, d, at);
    CompleteReports(o, events, before, s.report, at);
    CompleteReports(o, events + [wait], waiting, s.report, at);
  }

  lemma ReportGuard(before: Run, waiting: Run, d: InputDigest, at: int)
    requires before.roles.qa == SubmittedRole(BindingOf(before), QA, d, at) && waiting.roles == before.roles && BindingOf(waiting) == BindingOf(before)
    ensures var report := ReportOn(before, QA, d);
            && report.status == StComplete
            && ReportRole(before.roles.qa, QA, BindingOf(before), ATTEMPT, report, report, at).Ok?
            && ReportRole(waiting.roles.qa, QA, BindingOf(waiting), ATTEMPT, report, report, at).Ok?
  {
    hide SubmittedRole, ReportRole;
    ReportExpected(before, QA, d, at);
  }

  /** With no report of DEV there is no trial: the condition alone decides. */
  lemma CompleteReports(o: Origin, events: seq<Event>, r: Run, report: Report, at: int)
    requires Reaches(o, events, r) && report.status == StComplete && r.updatedAt <= at && r.roles.dev.report.None?
    requires ReportRole(r.roles.qa, QA, BindingOf(r), ATTEMPT, report, report, at).Ok?
    ensures Perform(r, RecordReport(QA, ATTEMPT, report, report, true, true), at).Ok? <==> r.condition in {Active, OffCourse}
  {
    hide Reaches, Perform, ReportRole, BuildCandidate;
    Refusals.CompleteReportInRun(o, events, r, QA, ATTEMPT, report, report, true, true, at);
  }
}
