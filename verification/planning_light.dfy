/** Runs that stay far below the size limits: every role record is small, and nothing is compiled. */
module PlanningLight {
  import opened Wrappers
  import opened JsonBytes
  import opened PlanningRuns
  import opened PlanningSteps
  import opened PlanningPaths
  import opened PlanningAcceptance
  import opened PlanningSizes
  import opened PlanningLimits
  import Bound = PlanningBound
  import Growth = PlanningGrowth
  import Length = PlanningLength
  import Liveness = PlanningLiveness
  import Stuck = PlanningStuck
  import Wide = PlanningWide

  /** Reached within the limits, whatever the readiness findings of a candidate would take up. */
  ghost predicate Within(o: Origin, events: seq<Event>, r: Run) {
    forall m: Measures :: ReachesWithin(m, o, events, r)
  }

  // ---------------------------------------------------------------- small records

  predicate SlimAttempt(a: Attempt) {
    && a.id == ATTEMPT && LeaseBytes(a.kind, a.lease) <= 4200
    && (a.dispatch.Some? ==> DispatchBytes(a.kind, a.id, a.dispatch.value) <= 15900)
    && TextBytes(a.summary) <= 80 && TextBytes(a.error) <= 80
    && (a.cleanup.Some? ==> CleanupBytes(a.cleanup.value) <= 2000)
  }

  predicate Slim(rec: RoleRecord) {
    && (rec.attempts == [] || (|rec.attempts| == 1 && SlimAttempt(rec.attempts[0])))
    && (rec.report.Some? ==> ReportBytes(3, rec.report.value) <= 15000)
  }

  lemma Times()
    ensures forall at :: 26 <= TimeBytes(at) <= 29
  {
  }

  lemma SlimAttemptBytes(a: Attempt)
    requires SlimAttempt(a)
    ensures AttemptBytes(a) <= 24000
  {
    hide TextBytes, LeaseBytes, DispatchBytes, CleanupBytes, TimeBytes, AttemptName, OutcomeName;
    Wide.ShortTexts();
    Times();
    AttemptNames();
  }

  lemma AttemptNames()
    ensures (forall s :: |AttemptName(s)| <= 18) && forall o :: |OutcomeName(o)| <= 11
  {
  }

  lemma SlimBytes(rec: RoleRecord)
    requires Slim(rec)
    ensures RoleBytes(rec) <= 40000
  {
    hide AttemptBytes, ReportBytes, SlimAttempt;
    if rec.attempts != [] {
      assert rec.attempts == [rec.attempts[0]];
      SlimAttemptBytes(rec.attempts[0]);
      Growth.OneAttemptBytes(rec.attempts[0]);
    }
  }

  /** The texts a record is given on the way. */
  lemma WayTexts(role: Role)
    ensures TextBytes(LOST) == 20 && TextBytes(DOUBTED) == 53 && TextBytes("") == 0
    ensures TextBytes(ReportSummary(role, StComplete)) <= 80
  {
    hide TextBytes;
    PlainText(LOST);
    Wide.SummaryText(role);
    Wide.ShortTexts();
    var first, rest := "Exact cleanup state ", "requires operator reconciliation.";
    PlainText(first);
    PlainText(rest);
    TextTogether(first, rest);
    assert DOUBTED == first + rest;
  }

  lemma ClaimTexts()
    ensures forall k :: TextBytes(ClaimId(k)) <= 12
  {
    hide TextBytes;
    PlainText("first-claim");
    PlainText("second-claim");
    PlainText("third-claim");
  }

  lemma HistoryBytes(k: int, at: int)
    ensures |PlanningPaths.History(k, at)| <= 2 && HistorySum(PlanningPaths.History(k, at)) <= 400
  {
    hide TextBytes, TimeBytes, ClaimId;
    ClaimTexts();
    Times();
    var x, y := Recovery(ExactWorker, ClaimId(1), at), Recovery(ExactWorker, ClaimId(2), at);
    Growth.HistoryPush([], x);
    Growth.HistoryPush([x], y);
    assert [] + [x] == [x] && [x] + [y] == [x, y];
  }

  lemma CleanupSmall(c: Cleanup)
    requires TextBytes(c.claimId) <= 12 && TextBytes(c.error) <= 20 && 0 <= c.recoveryCount <= 2
    requires |c.history| <= 2 && HistorySum(c.history) <= 400
    ensures CleanupBytes(c) <= 1500
  {
    hide TextBytes, TimeBytes, HistorySum, CleanupName, RecoveryName;
    Times();
    CleanupNames();
  }

  lemma CleanupNames()
    ensures (forall s :: |CleanupName(s)| <= 18) && forall o :: |RecoveryName(o)| <= 13
  {
  }

  lemma CleanupsSmall(k: int, at: int)
    requires 0 <= k <= 2
    ensures CleanupBytes(PENDING_CLEANUP) <= 1500 && CleanupBytes(ClaimedCleanup(k, at)) <= 1500
    ensures CleanupBytes(SentCleanup(k, at)) <= 1500 && CleanupBytes(DoubtfulCleanup(k, at)) <= 1500
    ensures CleanupBytes(CompletedCleanup(at)) <= 1500
  {
    hide TextBytes, CleanupBytes, ClaimId, PlanningPaths.History, HistorySum;
    ClaimTexts();
    WayTexts(PO);
    HistoryBytes(k, at);
    HistoryBytes(0, at);
    assert HistorySum([]) == 0 by { NoHistory(); }
    CleanupSmall(PENDING_CLEANUP);
    CleanupSmall(ClaimedCleanup(k, at));
    CleanupSmall(SentCleanup(k, at));
    CleanupSmall(DoubtfulCleanup(k, at));
    CleanupSmall(CompletedCleanup(at));
  }

  lemma NoHistory()
    ensures HistorySum([]) == 0
  {
  }

  lemma GoneSmall(at: int)
    ensures CleanupBytes(GoneCleanup(at)) <= 2000
  {
    hide CleanupBytes, TextBytes;
    CleanupsSmall(2, at);
    Growth.RecoveredBytes(DoubtfulCleanup(2, at), at);
    Growth.CleanupAtMost(DoubtfulCleanup(2, at), at);
  }

  // ---------------------------------------------------------------- the records on the way

  lemma EarlySlim(state: RoleState, b: RunBinding, role: Role, d: InputDigest, at: int)
    requires Wide.Plain(at)
    ensures Slim(OneAttempt(state, d, SpawnedAttempt(b, role, d, at))) && Slim(OneAttempt(state, d, BoundAttempt(b, role, d, at)))
    ensures Slim(OneAttempt(state, d, DispatchedAttempt(b, role, d, at))) && Slim(OneAttempt(state, d, SubmittedAttempt(b, role, d, at)))
  {
    hide TextBytes, LeaseBytes, DispatchBytes, ClaimedLease, BoundLease, DispatchFor;
    Wide.LeasesBytes(b, role, d, at);
    Wide.MarkerAndWorker(b, role, d, at);
    Wide.ShortTexts();
  }

  lemma DoneSlim(r: Run, role: Role, d: InputDigest, at: int)
    requires Wide.Named(r) && Wide.Plain(at)
    ensures ReportedRole(r, role, d, at) == Ok(ReportedRecord(r, role, d, at)) && Slim(ReportedRecord(r, role, d, at))
  {
    hide TextBytes, LeaseBytes, DispatchBytes, CleanupBytes, ClaimedLease, BoundLease, DispatchFor, ReportBytes, ReportOn, ReportRole;
    Wide.ReportedIs(r, role, d, at);
    Wide.LeasesBytes(BindingOf(r), role, d, at);
    Wide.MarkerAndWorker(BindingOf(r), role, d, at);
    WayTexts(role);
    CleanupsSmall(0, at);
    assert ReportBytes(3, ReportOn(r, role, d)) <= 15000 by { ReportSmall(r, role, d); }
  }

  lemma ReportSmall(r: Run, role: Role, d: InputDigest)
    requires Wide.Named(r)
    ensures ReportBytes(3, ReportOn(r, role, d)) <= 15000
  {
    hide ReportBytes, ReportOn;
    Wide.ReportOnBytes(r, role, d, 3);
  }

  lemma CleanedSlim(rec: RoleRecord, c: Cleanup)
    requires Slim(rec) && CleanupBytes(c) <= 2000
    ensures Slim(Recleaned(rec, c)) && Recleaned(rec, c).report == rec.report
  {
    hide TextBytes, LeaseBytes, DispatchBytes, CleanupBytes, ReportBytes;
  }

  lemma CrashedSlim(rec: RoleRecord, at: int, rec': RoleRecord)
    requires Slim(rec) && UnreportedRole(rec, ATTEMPT, OutCrashed, LOST, at) == Ok(rec')
    ensures Slim(rec') && rec'.report == rec.report
  {
    hide TextBytes, LeaseBytes, DispatchBytes, CleanupBytes, ReportBytes;
    WayTexts(PO);
    CleanupsSmall(0, at);
  }

  lemma DoubtedSlim(rec: RoleRecord, k: int, at: int)
    requires Slim(rec) && 0 <= k <= 2
    ensures Slim(DoubtfulRole(rec, k, at)) && DoubtfulRole(rec, k, at).report == rec.report
  {
    hide TextBytes, LeaseBytes, DispatchBytes, CleanupBytes, ReportBytes, DoubtfulCleanup;
    WayTexts(PO);
    CleanupsSmall(k, at);
  }

  // ---------------------------------------------------------------- small runs

  predicate SlimReceipt(x: Receipt) {
    && TextBytes(x.operationId) <= 30 && TextBytes(x.attemptId) <= 30 && TextBytes(x.claimId) <= 30
    && x.requestedStoreRevision == 0 && 1 <= x.requestedRunRevision <= 99
  }

  /** Nothing compiled, and no report of DEV with which the others would be tried out. */
  predicate Light(r: Run) {
    && Stuck.OnPlan(r, "request") && r.createdAt == 0 && r.candidate.None? && r.synthesisBlocker.None?
    && r.applyOutbox == EmptyOutbox(0) && r.blocker in {"", LOST} && r.roles.dev.report.None?
    && Slim(r.roles.po) && Slim(r.roles.ba) && Slim(r.roles.qa) && Slim(r.roles.dev)
    && forall x :: x in r.receipts ==> SlimReceipt(x)
  }

  lemma ReceiptAtMost(x: Receipt)
    requires SlimReceipt(x)
    ensures ReceiptBytes(x) <= 600
  {
    hide TextBytes, TimeBytes;
    Times();
    Stuck.FewDigits(x.requestedRunRevision);
    OneDigit();
    hide Digits;
  }

  lemma {:induction false} ReceiptsAtMost(receipts: seq<Receipt>)
    requires forall x :: x in receipts ==> SlimReceipt(x)
    ensures ReceiptsSum(receipts) <= 600 * |receipts|
  {
    hide SlimReceipt, ReceiptBytes;
    if receipts != [] {
      ReceiptsAtMost(receipts[..|receipts| - 1]);
      ReceiptAtMost(receipts[|receipts| - 1]);
    }
  }

  lemma RequestText()
    ensures TextBytes("request") == 7
  {
    hide TextBytes;
    PlainText("request");
  }

  /** Far below the limit of 256 KiB. */
  lemma LightBytes(m: Measures, r: Run)
    requires Light(r) && 1 <= r.revision <= 99 && |r.receipts| <= MAX_RECEIPTS
    ensures RunBytes(m, r) <= 200000
  {
    hide TextBytes, TimeBytes, FixedBytes, RoleBytes, IntBytes, PhaseName, ConditionName, Stuck.OnPlan, Slim, SlimReceipt, ReceiptBytes;
    Stuck.FullFixedBytes(r, "request");
    RequestText();
    WayTexts(PO);
    Times();
    Stuck.FewDigits(r.revision);
    SlimBytes(r.roles.po);
    SlimBytes(r.roles.ba);
    SlimBytes(r.roles.qa);
    SlimBytes(r.roles.dev);
    ReceiptsAtMost(r.receipts);
    Names();
  }

  lemma Names()
    ensures (forall p :: |PhaseName(p)| <= 9) && forall c :: |ConditionName(c)| <= 18
  {
  }

  /** One role record is replaced; phase, condition and blocker may change with it. */
  predicate RoleStep(r: Run, role: Role, rec: RoleRecord, next: Run) {
    next == r.(roles := r.roles.With(role, rec), phase := next.phase, condition := next.condition, blocker := next.blocker,
               revision := next.revision, updatedAt := next.updatedAt)
  }

  lemma RoleStepLight(r: Run, role: Role, rec: RoleRecord, next: Run)
    requires Light(r) && Slim(rec) && RoleStep(r, role, rec, next) && next.blocker in {"", LOST} && (role == DEV ==> rec.report.None?)
    ensures Light(next)
  {
    hide Slim, SlimReceipt, TextBytes;
  }

  /** Nothing but condition, blocker and receipts changed. */
  predicate IdleStep(r: Run, more: seq<Receipt>, next: Run) {
    && next == r.(receipts := next.receipts, condition := next.condition, blocker := next.blocker, revision := next.revision, updatedAt := next.updatedAt)
    && next.receipts == r.receipts + more
  }

  lemma IdleStepLight(r: Run, more: seq<Receipt>, next: Run)
    requires Light(r) && IdleStep(r, more, next) && next.blocker in {"", LOST} && forall x :: x in more ==> SlimReceipt(x)
    ensures Light(next)
  {
    hide Slim, SlimReceipt, TextBytes;
  }

  lemma LightRole(r: Run, role: Role)
    requires Light(r)
    ensures Slim(r.roles.Get(role)) && (role == DEV ==> r.roles.Get(role).report.None?)
    ensures Wide.Named(r) && r.roles.dev.report.None? && r.blocker in {"", LOST}
  {
    hide Slim, SlimReceipt, TextBytes;
  }

  lemma FreshBytes(r: Run)
    requires |r.receipts| <= MAX_RECEIPTS
    ensures TextBytes(FreshId(r)) <= 30
  {
    hide TextBytes;
    Wide.WideBytes('x', |r.receipts| + 8);
  }

  lemma StepReceiptsSlim(r: Run, role: Role, k: int, at: int)
    requires |r.receipts| <= MAX_RECEIPTS && 1 <= r.revision <= 99
    ensures SlimReceipt(ReceiptOf(RetryStep(r, role), at)) && SlimReceipt(ReceiptOf(KeepStep(r, role, k), at))
  {
    hide TextBytes, FreshId, ClaimId;
    FreshBytes(r);
    Wide.ShortTexts();
    ClaimTexts();
  }

  // ---------------------------------------------------------------- steps within the limits

  lemma ReachedFew(o: Origin, events: seq<Event>, r: Run)
    requires Reaches(o, events, r)
    ensures 1 <= r.revision <= 71 && |r.receipts| <= MAX_RECEIPTS
  {
    hide Reaches, Length.Shaped, Length.Potential, ValidSourcePlan, ValidRoles, ValidCandidate, ValidOutbox, ValidSynthesisBlocker, PhaseLifecycle,
      ConditionLifecycle, CountKind, ValidReceipt, Length.Bounded;
    Bound.RunLength(o, events, r);
    Length.ValidRunBounded(r);
    Length.PotentialNonNegative(r);
  }

  /** An accepted step between light runs is accepted with the limits too. */
  lemma LightStep(o: Origin, events: seq<Event>, r: Run, e: Event, next: Run)
    requires Within(o, events, r) && Reaches(o, events, r) && Perform(r, e.step, e.at) == Ok(next) && Light(r) && Light(next)
    requires e.step.RecordReport? ==> forall m: Measures :: SizesRight(m, r, e.step, e.at)
    ensures Within(o, events + [e], next)
  {
    hide ReachesWithin, Reaches, Perform, RunBytes, TrialFits, ReportFits, Light;
    Liveness.Extend(o, events, r, e, next);
    ReachedFew(o, events, r);
    ReachedFew(o, events + [e], next);
    forall m: Measures ensures ReachesWithin(m, o, events + [e], next) {
      LightBytes(m, r);
      LightBytes(m, next);
      WithinExtends(m, o, events, r, e, next);
    }
  }

  lemma CreatedLight(o: Origin, r: Run)
    requires o == Origin("planning-run-00000001", Bound.PlanOn("request"), 0) && CreateRun(o.id, o.plan, o.at) == Ok(r)
    ensures Light(r) && Within(o, [], r)
  {
    hide ValidSourcePlan, ValidRun, Bound.PlanOn, RunBytes, PlanBytes, TextBytes;
    Stuck.PlanNamed("request");
    assert Light(r);
    hide Light;
    Stuck.PlanOnBytes("request", 0);
    Stuck.EmptyPlanBytes(0);
    RequestText();
    forall m: Measures ensures ReachesWithin(m, o, [], r) {
      LightBytes(m, r);
    }
  }

  /** PO and BA report before anyone could be tried out, so their reports have only their own limit to keep. */
  lemma ReportSizes(r: Run, role: Role, d: InputDigest)
    requires Light(r) && r.condition == Active && r.blocker == "" && r.roles.Get(role) == SubmittedRole(BindingOf(r), role, d, 0)
    requires role != DEV
    ensures forall m: Measures :: SizesRight(m, r, ReportStep(r, role, d), 0)
  {
    hide SizesRight, ReportStep, SubmittedRole, Slim, Wide.DoneRole, SlimReceipt;
    forall m: Measures ensures SizesRight(m, r, ReportStep(r, role, d), 0) {
      NoCandidate(r, role, Wide.DoneRole(r, role, d, 0, PENDING_CLEANUP));
      Stuck.TrialIs(m, r, role, d);
    }
  }

  lemma NoCandidate(r: Run, role: Role, rec: RoleRecord)
    requires r.roles.dev.report.None? && role != DEV
    ensures BuildCandidate(WithRole(r, role, rec), 0).Err?
  {
  }

  /** Leaving the course and cancelling add little. */
  lemma ClosingStep(o: Origin, events: seq<Event>, r: Run, e: Event, next: Run, bytes: int)
    requires Within(o, events, r) && e.step == Liveness.Closing(r) && Perform(r, e.step, e.at) == Ok(next)
    requires bytes + Growth.CLOSING_BYTES <= MAX_RUN_BYTES && forall m: Measures :: RunBytes(m, r) <= bytes
    ensures Within(o, events + [e], next) && forall m: Measures :: RunBytes(m, next) <= bytes + Growth.CLOSING_BYTES
  {
    hide ReachesWithin, Perform, RunBytes, TrialFits, ReportFits, Liveness.Closing, Growth.ClosingGrowth;
    ClosingNoReport(r);
    Growth.ClosingAtMost(r, e.at);
    forall m: Measures ensures ReachesWithin(m, o, events + [e], next) && RunBytes(m, next) <= bytes + Growth.CLOSING_BYTES {
      Growth.ClosingBytes(m, r, e.at, next);
      WithinExtends(m, o, events, r, e, next);
    }
  }
}
