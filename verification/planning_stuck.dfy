/** A reachable Planning Run of exactly 256 KiB that accepts no step any more. */
module PlanningStuck {
  import opened Wrappers
  import opened DeliveryPlans
  import opened JsonBytes
  import opened PlanningRuns
  import opened PlanningSteps
  import opened PlanningPaths
  import opened PlanningAcceptance
  import opened PlanningSizes
  import opened PlanningLimits
  import opened PlanningReview
  import opened PlanningWide
  import Bound = PlanningBound
  import Liveness = PlanningLiveness
  import Phases = DeliveryPlanPhases
  import Refusals = PlanningRefusals
  import Safety = PlanningSafety

  // ---------------------------------------------------------------- the candidate

  predicate OnPlan(r: Run, request: string) {
    Named(r) && r.sourcePlan == Bound.PlanOn(request) && r.planDigest == Bound.PlanOn(request).def
  }

  predicate FullRole(rec: RoleRecord, role: Role) {
    rec.report.Some? && FullReport(rec.report.value, role)
  }

  predicate AllFull(t: RoleTable) {
    FullRole(t.po, PO) && FullRole(t.ba, BA) && FullRole(t.qa, QA) && FullRole(t.dev, DEV)
  }

  /** What the readiness lint sees of the candidate. */
  function Linted(): Definition {
    Bound.PlanOn("").def.(id := "", title := "", request := "", unresolvedQuestions := AllChallenges(" challenge: "))
  }

  function FullPatch(): CandidatePatch {
    CandidatePatch(Bound.EMPTY_PO, Bound.EMPTY_BA, Bound.EMPTY_DEV, Bound.EMPTY_QA, AllChallenges(" challenge: "))
  }

  function Preview(request: string): Definition {
    Bound.PlanOn(request).def.(unresolvedQuestions := AllChallenges(" challenge: "))
  }

  lemma PreviewAccepted(request: string, at: int)
    requires at >= 0
    ensures var p := Phases.UpdateDefinition(Bound.PlanOn(request), PlanPatch(FullPatch()), at);
            p.Ok? && p.value.revision == 2 && p.value.def == Preview(request) && p.value.def != Bound.PlanOn(request).def
              && !Complete(p.value)
  {
    hide AllChallenges;
    assert |AllChallenges(" challenge: ")| == 24 by { HowMany(" challenge: "); }
    assert Bound.PlanOn(request).def.roles.ba.requirements == [];
    assert AllChallenges(" challenge: ") != [];
    var candidate := Phases.Merged(Bound.PlanOn(request), PlanPatch(FullPatch()));
    assert candidate.def == Preview(request);
    assert OpenQuestions(Preview(request))[0] == AllChallenges(" challenge: ")[0];
  }

  lemma HowMany(tail: string)
    ensures |AllChallenges(tail)| == 24
  {
  }

  lemma FullCandidate(r: Run, request: string, at: int)
    requires OnPlan(r, request) && AllFull(r.roles) && at >= 0
    ensures BuildCandidate(r, at).Ok?
    ensures var c := BuildCandidate(r, at).value;
            c.patch == FullPatch() && c.previewPlanDigest == Preview(request) && c.challenges == AllChallenges(": ")
              && c.compiledAt == at && !c.ready
  {
    hide Challenges, Prefixed, AllChallenges, CandidateQuestions, CandidateChallenges, Phases.UpdateDefinition,
      Bound.PlanOn, Complete, Preview, PlanPatch;
    var o := Outputs(r.roles.po.report.value, r.roles.ba.report.value, r.roles.qa.report.value, r.roles.dev.report.value);
    FullQuestions(request, o);
    FullChallenges(o);
    PreviewAccepted(request, at);
  }

  lemma FullCandidateBytes(m: Measures, c: Candidate, request: string)
    requires c.patch == FullPatch() && c.previewPlanDigest == Preview(request) && c.challenges == AllChallenges(": ")
            && TimeBytes(c.compiledAt) == 26
    ensures CandidateBytes(m, c) == 109063 + m.readiness(Linted())
  {
    hide AllChallenges, TextsBytes, PoBytes, BaBytes, DevBytes, QaBytes, TextBytes, ListFrame, TimeBytes;
    ArtifactsBytes(4);
    PlainText(" challenge: ");
    PlainText(": ");
    AllChallengesBytes(" challenge: ", 12, 3);
    AllChallengesBytes(": ", 2, 2);
    assert ListFrame(3, 24) == 248 && ListFrame(2, 24) == 198 by { ListFrames(); }
  }

  lemma ListFrames()
    ensures ListFrame(3, 24) == 248 && ListFrame(2, 24) == 198 && ListFrame(4, 6) == 82 && ListFrame(1, 6) == 40
  {
  }

  // ---------------------------------------------------------------- the fixed part

  lemma PlanOnBytes(request: string, depth: nat)
    ensures PlanBytes(depth, Bound.PlanOn(request)) == PlanBytes(depth, Bound.PlanOn("")) + TextBytes(request)
  {
    hide TextBytes, BaselineBytes, ClassificationBytes, RolesBytes, TextsBytes, AuthorityBytes, ApprovalBytes,
      GatesBytes, Frame, TimeBytes;
    assert TextBytes("") == 0 by { ShortTexts(); }
  }

  lemma OneText(depth: nat)
    ensures TextsBytes(depth, ["workspace"]) == ListFrame(depth, 1) + 11
  {
    hide TextBytes, ListFrame;
    PlanTexts();
    EvenTexts(["workspace"], 9);
  }

  lemma EmptyPlanBytes(depth: nat)
    requires depth <= 1
    ensures PlanBytes(depth, Bound.PlanOn("")) == 1808 + 160 * depth
  {
    hide TextBytes, TimeBytes, PoBytes, BaBytes, DevBytes, QaBytes, TextsBytes, Digits;
    ShortTexts();
    PlanTexts();
    ArtifactsBytes(depth + 2);
    EmptyLists(depth + 1);
    EmptyLists(depth + 2);
    OneDigit();
    assert TimeBytes(0) == 26 by { StartTime(); }
    OneText(depth + 2);
  }

  lemma StartTime()
    ensures TimeBytes(0) == 26 && Plain(0)
  {
  }

  lemma FullFixedBytes(r: Run, request: string)
    requires OnPlan(r, request) && r.createdAt == 0
    ensures FixedBytes(r) == 2780 + TextBytes(request)
  {
    hide TextBytes, TimeBytes, PlanBytes, Digits;
    ShortTexts();
    PlanTexts();
    OneDigit();
    PlanOnBytes(request, 1);
    EmptyPlanBytes(1);
    assert TimeBytes(0) == 26 by { StartTime(); }
  }

  // ---------------------------------------------------------------- on the way

  /** No candidate yet, nothing in the way, and every role record as small as on the plain path. */
  predicate Lean(r: Run, request: string) {
    && OnPlan(r, request) && r.createdAt == r.updatedAt == 0 && 1 <= r.revision <= 99 && r.blocker == "" && r.condition == Active
    && r.candidate.None? && r.synthesisBlocker.None? && r.receipts == [] && r.applyOutbox == EmptyOutbox(0)
    && (forall role :: RoleBytes(r.roles.Get(role)) <= 36000)
  }

  predicate ShortRequest(request: string) {
    TextBytes(request) <= 12000
  }

  lemma FewDigits(n: int)
    requires 1 <= n <= 99
    ensures 1 <= IntBytes(n) <= 2 && (n >= 10 ==> IntBytes(n) == 2)
  {
    if n >= 10 {
      assert Digits(n / 10) == 1;
    }
  }

  /** The bytes of a run without blockers and receipts. */
  lemma CleanBytes(m: Measures, r: Run, request: string)
    requires OnPlan(r, request) && r.createdAt == r.updatedAt == 0 && r.blocker == "" && r.condition == Active
    requires r.synthesisBlocker.None? && r.receipts == [] && r.applyOutbox == EmptyOutbox(0)
    ensures RunBytes(m, r) == 3141 + TextBytes(request) + IntBytes(r.revision) + |PhaseName(r.phase)|
                              + RoleBytes(r.roles.po) + RoleBytes(r.roles.ba) + RoleBytes(r.roles.qa) + RoleBytes(r.roles.dev)
                              + if r.candidate.Some? then CandidateBytes(m, r.candidate.value) else NULL
  {
    hide TextBytes, TimeBytes, FixedBytes, RoleBytes, CandidateBytes, IntBytes, PhaseName;
    FullFixedBytes(r, request);
    ShortTexts();
    assert TimeBytes(0) == 26 by { StartTime(); }
    assert ReceiptsSum([]) == 0 && ListFrame(1, 0) == 2;
  }

  lemma LeanFits(m: Measures, r: Run, request: string)
    requires Lean(r, request) && ShortRequest(request)
    ensures RunFits(m, r)
  {
    hide RunBytes, RoleBytes, TextBytes, IntBytes, OnPlan, CandidateBytes;
    CleanBytes(m, r, request);
    FewDigits(r.revision);
    assert RoleBytes(r.roles.Get(PO)) <= 36000 && RoleBytes(r.roles.Get(BA)) <= 36000 && RoleBytes(r.roles.Get(QA)) <= 36000
           && RoleBytes(r.roles.Get(DEV)) <= 36000;
    assert |PhaseName(r.phase)| <= 9 by { PhaseNames(); }
    hide PhaseName;
  }

  lemma PhaseNames()
    ensures forall p :: |PhaseName(p)| <= 9
    ensures |PhaseName(PhaseReview)| == 6 && |PhaseName(PhaseChallenge)| == 9
  {
  }

  /** A run reached within the limits by n steps, and still lean. */
  predicate Under(m: Measures, request: string, o: Origin, events: seq<Event>, r: Run, n: int) {
    ReachesWithin(m, o, events, r) && Working(r, 0) && Lean(r, request) && ShortRequest(request) && r.revision == n + 1 && |events| == n
  }

  lemma TakeUnder(m: Measures, request: string, o: Origin, events: seq<Event>, r: Run, n: nat, s: Step, next: Run)
    returns (more: seq<Event>)
    requires Under(m, request, o, events, r, n) && Perform(r, s, 0) == Ok(next) && SizesRight(m, r, s, 0) && RunFits(m, next)
    ensures ReachesWithin(m, o, more, next) && |more| == n + 1
  {
    hide ReachesWithin, Perform, Working, RunFits, SizesRight, Lean;
    LeanFits(m, r, request);
    more := events + [Event(s, 0)];
    WithinExtends(m, o, events, r, Event(s, 0), next);
  }

  /** One role record changed, and perhaps the phase. */
  predicate Follows(r: Run, role: Role, phase: RunPhase, rec: RoleRecord, next: Run) {
    next == Stamped(WithRole(r, role, rec).(phase := phase), 0)
  }

  lemma StaysLean(r: Run, request: string, role: Role, phase: RunPhase, rec: RoleRecord, next: Run)
    requires Lean(r, request) && r.revision <= 98 && Follows(r, role, phase, rec, next) && RoleBytes(rec) <= 36000
    ensures Lean(next, request) && next.revision == r.revision + 1 && next.roles == r.roles.With(role, rec) && next.phase == phase
  {
    hide RoleBytes;
    Bound.GetWith(r.roles, role, rec);
  }

  /** Any step on a role record that is accepted, with a record that is small enough. */
  lemma Proceed(m: Measures, request: string, o: Origin, events: seq<Event>, r: Run, n: nat, s: Step,
                role: Role, phase: RunPhase, rec: RoleRecord)
    returns (more: seq<Event>, next: Run)
    requires Under(m, request, o, events, r, n) && n <= 90 && !s.RecordReport?
    requires var next := Stamped(WithRole(r, role, rec).(phase := phase), 0); Perform(r, s, 0) == Ok(next) && Working(next, 0)
    requires RoleBytes(rec) <= 36000
    ensures Under(m, request, o, more, next, n + 1) && next.roles == r.roles.With(role, rec) && next.phase == phase
    ensures BindingOf(next) == BindingOf(r)
  {
    hide ReachesWithin, Perform, Working, RoleBytes, Lean, TextBytes, RunFits, TrialFits, ReportFits;
    next := Stamped(WithRole(r, role, rec).(phase := phase), 0);
    StaysLean(r, request, role, phase, rec, next);
    LeanFits(m, next, request);
    more := TakeUnder(m, request, o, events, r, n, s, next);
  }

  // ---------------------------------------------------------------- one role

  lemma UnderFacts(m: Measures, request: string, o: Origin, events: seq<Event>, r: Run, n: nat)
    requires Under(m, request, o, events, r, n)
    ensures Working(r, 0) && r.condition == Active && r.updatedAt == 0 && Named(r) && r.candidate.None? && r.blocker == ""
  {
    hide ReachesWithin, Working, RoleBytes;
  }

  /** A quiet step on a role record. */
  lemma Quietly(m: Measures, request: string, o: Origin, events: seq<Event>, r: Run, n: nat, s: Step, role: Role, rec: RoleRecord)
    returns (more: seq<Event>, next: Run)
    requires Under(m, request, o, events, r, n) && n <= 90 && LocalStep(s) && !s.CompleteCleanup? && !s.RecoverCleanup?
    requires RoleOf(s) == Some(role) && LocalEffect(r.roles.Get(role), s, 0) == Ok(rec) && ValidRole(rec, role, BindingOf(r)) && RoleBytes(rec) <= 36000
    requires r.roles.Get(role).state != Pending && !CompletedAndCleaned(r.roles.Get(role))
    requires Quiet(rec.state) && Quiet(r.roles.Get(role).state)
    ensures Under(m, request, o, more, next, n + 1) && next.roles == r.roles.With(role, rec) && next.phase == r.phase
            && BindingOf(next) == BindingOf(r)
  {
    hide Under, Perform, Working, RoleBytes, LocalEffect, ValidRole, CompletedAndCleaned;
    UnderFacts(m, request, o, events, r, n);
    LocalAccepted(r, s, role, rec, 0);
    assert WithRole(r, role, rec).(phase := r.phase) == WithRole(r, role, rec);
    more, next := Proceed(m, request, o, events, r, n, s, role, r.phase, rec);
  }

  lemma Claimed(m: Measures, request: string, o: Origin, events: seq<Event>, r: Run, n: nat, role: Role, d: InputDigest)
    returns (more: seq<Event>, next: Run)
    requires Under(m, request, o, events, r, n) && n <= 90 && Eligible(r, role) && RoleInputDigest(r, role) == Ok(d)
    ensures Under(m, request, o, more, next, n + 1) && next.phase == r.phase && BindingOf(next) == BindingOf(r)
    ensures next.roles == r.roles.With(role, OneAttempt(SpawnClaimed, d, SpawnedAttempt(BindingOf(r), role, d, 0)))
  {
    hide Under, Perform, Working, RoleBytes, AttemptBytes, Eligible, RoleInputDigest, SpawnedAttempt, SpawnStep,
      Spawned;
    UnderFacts(m, request, o, events, r, n);
    SpawnAccepted(r, role, d, 0);
    var rec := SpawnedRole(r, role, d, 0);
    StartTime();
    EarlyAttemptBytes(BindingOf(r), role, d, 0);
    EarlyBytes(SpawnClaimed, d, SpawnedAttempt(BindingOf(r), role, d, 0));
    SpawnedIs(r, role, d);
    assert !SpawnStep(r, role, d, 0).RecordReport? by { NoReport(r, role, d); }
    more, next := Proceed(m, request, o, events, r, n, SpawnStep(r, role, d, 0), role, r.phase, rec);
  }

  lemma SpawnedIs(r: Run, role: Role, d: InputDigest)
    requires r.condition == Active && r.blocker == ""
    ensures Spawned(r, role, d, 0) == WithRole(r, role, SpawnedRole(r, role, d, 0)).(phase := r.phase)
  {
    hide SpawnedRole;
  }

  lemma NoReport(r: Run, role: Role, d: InputDigest)
    ensures !SpawnStep(r, role, d, 0).RecordReport?
  {
  }

  /** From one quiet record to the next. */
  lemma QuietOn(m: Measures, request: string, o: Origin, events: seq<Event>, r: Run, n: nat, s: Step, role: Role,
                state: RoleState, a: Attempt, state': RoleState, a': Attempt, d: InputDigest)
    returns (more: seq<Event>, next: Run)
    requires Under(m, request, o, events, r, n) && n <= 90 && LocalStep(s) && !s.CompleteCleanup? && !s.RecoverCleanup?
    requires state in {SpawnClaimed, DispatchClaimed, Dispatched} && state' in {SpawnClaimed, DispatchClaimed, Dispatched}
    requires RoleOf(s) == Some(role) && r.roles.Get(role) == OneAttempt(state, d, a) && AttemptBytes(a') <= 21400
    requires LocalEffect(OneAttempt(state, d, a), s, 0) == Ok(OneAttempt(state', d, a'))
            && ValidRole(OneAttempt(state', d, a'), role, BindingOf(r))
    ensures Under(m, request, o, more, next, n + 1) && next.phase == r.phase && BindingOf(next) == BindingOf(r)
    ensures next.roles == r.roles.With(role, OneAttempt(state', d, a')) && next.roles.Get(role) == OneAttempt(state', d, a')
  {
    hide Under, LocalEffect, ValidRole, RoleBytes, AttemptBytes;
    EarlyBytes(state', d, a');
    more, next := Quietly(m, request, o, events, r, n, s, role, OneAttempt(state', d, a'));
    Bound.GetWith(r.roles, role, OneAttempt(state', d, a'));
  }

  /** The effect of the three steps up to the submission. */
  lemma WorkEffects(b: RunBinding, role: Role, d: InputDigest)
    ensures LocalEffect(OneAttempt(SpawnClaimed, d, SpawnedAttempt(b, role, d, 0)),
                        BindLease(role, ATTEMPT, Liveness.RefOf(ClaimedLease(b, role, d, 0)), PANE), 0)
            == Ok(OneAttempt(SpawnClaimed, d, BoundAttempt(b, role, d, 0)))
    ensures LocalEffect(OneAttempt(SpawnClaimed, d, BoundAttempt(b, role, d, 0)),
                        ClaimDispatch(role, ATTEMPT, BindingFor(b, role, d, 0).leaseId, DispatchFor(b, role, d, 0)), 0)
            == Ok(OneAttempt(DispatchClaimed, d, DispatchedAttempt(b, role, d, 0)))
    ensures LocalEffect(OneAttempt(DispatchClaimed, d, DispatchedAttempt(b, role, d, 0)), MarkDispatched(role, ATTEMPT), 0)
            == Ok(OneAttempt(Dispatched, d, SubmittedAttempt(b, role, d, 0)))
    ensures ValidRole(OneAttempt(SpawnClaimed, d, BoundAttempt(b, role, d, 0)), role, b)
    ensures ValidRole(OneAttempt(DispatchClaimed, d, DispatchedAttempt(b, role, d, 0)), role, b)
    ensures ValidRole(OneAttempt(Dispatched, d, SubmittedAttempt(b, role, d, 0)), role, b)
  {
    hide BindRole, DispatchRole, SubmitRole, ValidRole, SpawnedAttempt, BoundAttempt, DispatchedAttempt,
      SubmittedAttempt, BindingFor, ClaimedLease, DispatchFor, OneAttempt;
    BoundValid(role, b, d, 0);
    DispatchedValid(role, b, d, 0);
    SubmittedValid(role, b, d, 0);
  }

  lemma Worked(m: Measures, request: string, o: Origin, events: seq<Event>, r: Run, n: nat, role: Role, d: InputDigest)
    returns (more: seq<Event>, next: Run)
    requires Under(m, request, o, events, r, n) && n <= 80
    requires r.roles.Get(role) == OneAttempt(SpawnClaimed, d, SpawnedAttempt(BindingOf(r), role, d, 0))
    ensures Under(m, request, o, more, next, n + 3) && next.phase == r.phase && BindingOf(next) == BindingOf(r)
    ensures next.roles == r.roles.With(role, SubmittedRole(BindingOf(r), role, d, 0))
            && next.roles.Get(role) == SubmittedRole(BindingOf(r), role, d, 0)
  {
    hide Under, ValidRole, SpawnedAttempt, BoundAttempt, DispatchedAttempt, SubmittedAttempt, BindingFor,
      ClaimedLease, DispatchFor, LocalEffect, AttemptBytes, OneAttempt, Plain;
    var b := BindingOf(r);
    StartTime();
    EarlyAttemptBytes(b, role, d, 0);
    WorkEffects(b, role, d);
    var bound, dispatched := BoundAttempt(b, role, d, 0), DispatchedAttempt(b, role, d, 0);
    var m1, r1 := QuietOn(m, request, o, events, r, n,
                          BindLease(role, ATTEMPT, Liveness.RefOf(ClaimedLease(b, role, d, 0)), PANE), role,
                          SpawnClaimed, SpawnedAttempt(b, role, d, 0), SpawnClaimed, bound, d);
    var m2, r2 := QuietOn(m, request, o, m1, r1, n + 1,
                          ClaimDispatch(role, ATTEMPT, BindingFor(b, role, d, 0).leaseId, DispatchFor(b, role, d, 0)), role,
                          SpawnClaimed, bound, DispatchClaimed, dispatched, d);
    more, next := QuietOn(m, request, o, m2, r2, n + 2, MarkDispatched(role, ATTEMPT), role, DispatchClaimed, dispatched,
                          Dispatched, SubmittedAttempt(b, role, d, 0), d);
    WithThrice(r.roles, role, OneAttempt(SpawnClaimed, d, bound), OneAttempt(DispatchClaimed, d, dispatched), SubmittedRole(b, role, d, 0));
  }

  lemma WithThrice(t: RoleTable, role: Role, x: RoleRecord, y: RoleRecord, z: RoleRecord)
    ensures t.With(role, x).With(role, y) == t.With(role, y) && t.With(role, x).With(role, y).With(role, z) == t.With(role, z)
  {
  }

  // ---------------------------------------------------------------- its report

  lemma DoneSame(r: Run, next: Run, role: Role, d: InputDigest, c: Cleanup)
    requires BindingOf(next) == BindingOf(r)
    ensures DoneRole(next, role, d, 0, c) == DoneRole(r, role, d, 0, c)
  {
    hide DoneAttempt, Challenges;
  }

  lemma DoneFull(r: Run, role: Role, d: InputDigest, c: Cleanup)
    requires Named(r)
    ensures FullRole(DoneRole(r, role, d, 0, c), role) && ReportComplete(DoneRole(r, role, d, 0, c))
    ensures RoleBytes(DoneRole(r, role, d, 0, c)) == DoneRoleBytes(role) + CleanupBytes(c)
  {
    hide DoneAttempt, Challenges, RoleBytes, CleanupBytes, DoneRoleBytes, TimeBytes, Plain;
    StartTime();
    DoneBytes(r, role, d, 0, c);
  }

  lemma DoneEnded(r: Run, role: Role, d: InputDigest)
    ensures Ended(DoneRole(r, role, d, 0, PENDING_CLEANUP), role, BindingOf(r), PENDING_CLEANUP)
  {
    hide Ended, DoneRole, ReportedRole;
    ReportedIs(r, role, d, 0);
    ReportedEnded(r, role, d, 0);
  }

  /** Whether the report is tried out and the trial fits, and what is recorded. */
  predicate TrialPasses(m: Measures, r: Run, role: Role, d: InputDigest) {
    var rec := DoneRole(r, role, d, 0, PENDING_CLEANUP);
    match BuildCandidate(WithRole(r, role, rec), 0)
    case Err(_) => role in {PO, BA} || (role == QA && r.roles.dev.report.None?)
    case Ok(built) => RunFits(m, WithRole(r, role, rec).(candidate := Some(built)))
  }

  lemma TrialIs(m: Measures, r: Run, role: Role, d: InputDigest)
    requires r.condition == Active && r.blocker == "" && r.roles.Get(role) == SubmittedRole(BindingOf(r), role, d, 0) && Named(r)
    requires TrialPasses(m, r, role, d)
    ensures SizesRight(m, r, ReportStep(r, role, d), 0)
    ensures role in {QA, DEV} ==> !Refusals.TrialFails(r, role, ReportedRecord(r, role, d, 0), true, 0)
  {
    hide DoneRole, RunFits, BuildCandidate, ReportFits, ReportRole, SubmittedRole, ReportOn;
    ReportedIs(r, role, d, 0);
    ReportOnFits(r, role, d);
    var s, rec := ReportStep(r, role, d), DoneRole(r, role, d, 0, PENDING_CLEANUP);
    CompleteStatus(r, role, d);
    if BuildCandidate(WithRole(r, role, rec), 0).Ok? {
      assert TrialCopy(r, role, s.report, rec, BuildCandidate(WithRole(r, role, rec), 0).value)
             == WithRole(r, role, rec).(candidate := Some(BuildCandidate(WithRole(r, role, rec), 0).value));
    }
  }

  lemma CompleteStatus(r: Run, role: Role, d: InputDigest)
    ensures ReportOn(r, role, d).status == StComplete
  {
    hide Challenges;
  }

  lemma Reported(m: Measures, request: string, o: Origin, events: seq<Event>, r: Run, n: nat, role: Role, d: InputDigest)
    returns (more: seq<Event>, next: Run)
    requires Under(m, request, o, events, r, n) && n <= 80 && r.roles.Get(role) == SubmittedRole(BindingOf(r), role, d, 0)
    requires TrialPasses(m, r, role, d)
    ensures Under(m, request, o, more, next, n + 1) && next.phase == r.phase && BindingOf(next) == BindingOf(r)
    ensures next.roles == r.roles.With(role, DoneRole(r, role, d, 0, PENDING_CLEANUP))
  {
    hide Under, Perform, Working, RoleBytes, SubmittedRole, DoneRole, TrialPasses, SizesRight, ReportStep,
      ReportedRole, Refusals.TrialFails, CleanupBytes;
    UnderFacts(m, request, o, events, r, n);
    TrialIs(m, r, role, d);
    ReportAccepted(r, role, d, 0);
    ReportedIs(r, role, d, 0);
    var rec := DoneRole(r, role, d, 0, PENDING_CLEANUP);
    DoneFull(r, role, d, PENDING_CLEANUP);
    assert RoleBytes(rec) <= 36000 by { DoneSizes(role); }
    assert Refusals.Untried(r, role, rec) == WithRole(r, role, rec).(phase := r.phase);
    more, next := ProceedReport(m, request, o, events, r, n, ReportStep(r, role, d), role, rec);
  }

  lemma DoneSizes(role: Role)
    ensures DoneRoleBytes(role) + CleanupBytes(PENDING_CLEANUP) <= 36000
            && DoneRoleBytes(role) + CleanupBytes(ClaimedCleanup(0, 0)) <= 36000
    ensures DoneRoleBytes(role) + CleanupBytes(SentCleanup(0, 0)) <= 36000 && CleanupBytes(CompletedCleanup(0)) == 401
    ensures CleanupBytes(PENDING_CLEANUP) == 323 && DoneRoleBytes(role) + 401 <= 36000
  {
    hide CleanupBytes;
    StartTime();
    CleanupSizes(0);
    hide CleanupBytes;
  }

  lemma ProceedReport(m: Measures, request: string, o: Origin, events: seq<Event>, r: Run, n: nat, s: Step, role: Role, rec: RoleRecord)
    returns (more: seq<Event>, next: Run)
    requires Under(m, request, o, events, r, n) && n <= 90 && SizesRight(m, r, s, 0)
    requires var next := Stamped(WithRole(r, role, rec).(phase := r.phase), 0); Perform(r, s, 0) == Ok(next) && Working(next, 0)
    requires RoleBytes(rec) <= 36000
    ensures Under(m, request, o, more, next, n + 1) && next.roles == r.roles.With(role, rec) && next.phase == r.phase
    ensures BindingOf(next) == BindingOf(r)
  {
    hide ReachesWithin, Perform, Working, RoleBytes, Lean, TextBytes, RunFits, SizesRight;
    next := Stamped(WithRole(r, role, rec).(phase := r.phase), 0);
    StaysLean(r, request, role, r.phase, rec, next);
    LeanFits(m, next, request);
    more := TakeUnder(m, request, o, events, r, n, s, next);
  }

  // ---------------------------------------------------------------- its cleanup

  predicate CleanupMove(r: Run, role: Role, s: Step, d: InputDigest, c: Cleanup, c': Cleanup) {
    && (s.ClaimCleanup? || s.SendCleanup?) && RoleOf(s) == Some(role) && c.state != CleanupComplete
    && LocalEffect(DoneRole(r, role, d, 0, c), s, 0) == Ok(DoneRole(r, role, d, 0, c'))
    && ValidRole(DoneRole(r, role, d, 0, c'), role, BindingOf(r))
    && DoneRoleBytes(role) + CleanupBytes(c') <= 36000
  }

  lemma CleanupOn(m: Measures, request: string, o: Origin, events: seq<Event>, r: Run, n: nat,
                  role: Role, s: Step, d: InputDigest, c: Cleanup, c': Cleanup)
    returns (more: seq<Event>, next: Run)
    requires Under(m, request, o, events, r, n) && n <= 80 && CleanupMove(r, role, s, d, c, c')
    requires r.roles.Get(role) == DoneRole(r, role, d, 0, c)
    ensures Under(m, request, o, more, next, n + 1) && next.phase == r.phase && BindingOf(next) == BindingOf(r)
    ensures next.roles == r.roles.With(role, DoneRole(r, role, d, 0, c'))
  {
    hide Under, LocalEffect, RoleBytes, CleanupBytes, DoneAttempt, ValidRole, Challenges, DoneRoleBytes, Working;
    UnderFacts(m, request, o, events, r, n);
    DoneFull(r, role, d, c');
    var rec' := DoneRole(r, role, d, 0, c');
    assert !CompletedAndCleaned(DoneRole(r, role, d, 0, c)) by { DoneUnfinished(r, role, d, c); }
    more, next := Quietly(m, request, o, events, r, n, s, role, rec');
  }

  lemma DoneUnfinished(r: Run, role: Role, d: InputDigest, c: Cleanup)
    ensures CompletedAndCleaned(DoneRole(r, role, d, 0, c)) <==> c.state == CleanupComplete
  {
    hide SubmittedAttempt, Challenges;
  }

  lemma CleanupEffects(r: Run, role: Role, d: InputDigest)
    ensures CleanupMove(r, role, ClaimCleanup(role, ATTEMPT, ClaimId(0)), d, PENDING_CLEANUP, ClaimedCleanup(0, 0))
    ensures CleanupMove(r, role, SendCleanup(role, ATTEMPT), d, ClaimedCleanup(0, 0), SentCleanup(0, 0))
  {
    hide Ended, WithCleanup, DoneAttempt, ReportOn, ClaimId, ClaimCleanupRole, SendCleanupRole, ValidRole,
      CleanupBytes, DoneRoleBytes;
    DoneSizes(role);
    DoneEnded(r, role, d);
    DoneMoves(r, role, d, 0, PENDING_CLEANUP, ClaimedCleanup(0, 0));
    ClaimMoves(DoneRole(r, role, d, 0, PENDING_CLEANUP), role, BindingOf(r), 0);
    DoneMoves(r, role, d, 0, ClaimedCleanup(0, 0), SentCleanup(0, 0));
    SendMoves(DoneRole(r, role, d, 0, ClaimedCleanup(0, 0)), role, BindingOf(r), 0, 0);
    EndedValid(DoneRole(r, role, d, 0, ClaimedCleanup(0, 0)), role, BindingOf(r), ClaimedCleanup(0, 0));
    EndedValid(DoneRole(r, role, d, 0, SentCleanup(0, 0)), role, BindingOf(r), SentCleanup(0, 0));
  }

  lemma CompletedEffect(r: Run, role: Role, d: InputDigest)
    ensures CompleteCleanupRole(DoneRole(r, role, d, 0, SentCleanup(0, 0)), ATTEMPT, 0) == Ok(DoneRole(r, role, d, 0, CompletedCleanup(0)))
    ensures ValidRole(DoneRole(r, role, d, 0, CompletedCleanup(0)), role, BindingOf(r))
  {
    hide *;
    DoneEnded(r, role, d);
    DoneMoves(r, role, d, 0, PENDING_CLEANUP, ClaimedCleanup(0, 0));
    ClaimMoves(DoneRole(r, role, d, 0, PENDING_CLEANUP), role, BindingOf(r), 0);
    DoneMoves(r, role, d, 0, ClaimedCleanup(0, 0), SentCleanup(0, 0));
    SendMoves(DoneRole(r, role, d, 0, ClaimedCleanup(0, 0)), role, BindingOf(r), 0, 0);
    DoneMoves(r, role, d, 0, SentCleanup(0, 0), CompletedCleanup(0));
    CompleteMoves(DoneRole(r, role, d, 0, SentCleanup(0, 0)), role, BindingOf(r), 0);
    EndedValid(DoneRole(r, role, d, 0, CompletedCleanup(0)), role, BindingOf(r), CompletedCleanup(0));
  }

  /** The request fills the run up to its limit. */
  predicate Fills(m: Measures, request: string) {
    TextBytes(request) + m.readiness(Linted()) == 7391
  }

  /** The role is done, its worker gone, its record as large as expected. */
  predicate Finished(rec: RoleRecord, role: Role) {
    FullRole(rec, role) && RoleBytes(rec) == DoneRoleBytes(role) + 401 && CompletedAndCleaned(rec)
  }

  predicate TrialReady(m: Measures, request: string, t: RoleTable, role: Role) {
    if role != DEV then t.dev.report.None? else Fills(m, request) && Finished(t.po, PO) && Finished(t.ba, BA) && Finished(t.qa, QA)
  }

  lemma ReadyPasses(m: Measures, request: string, r: Run, role: Role, d: InputDigest)
    requires Lean(r, request) && TrialReady(m, request, r.roles, role)
    ensures TrialPasses(m, r, role, d)
  {
    hide DoneRole, Lean, RoleBytes, TextBytes, RunFits, Linted, FullReport, BuildCandidate, CompletedAndCleaned;
    if role != DEV {
      MissingReport(r, role, DoneRole(r, role, d, 0, PENDING_CLEANUP));
    } else {
      DevTrial(m, request, r, d);
    }
  }

  lemma MissingReport(r: Run, role: Role, rec: RoleRecord)
    requires role != DEV && r.roles.dev.report.None?
    ensures BuildCandidate(WithRole(r, role, rec), 0).Err?
  {
    hide PatchFor, PlanPatch, Phases.UpdateDefinition, Complete;
  }

  lemma DevTrial(m: Measures, request: string, r: Run, d: InputDigest)
    requires Lean(r, request) && TrialReady(m, request, r.roles, DEV)
    ensures TrialPasses(m, r, DEV, d)
  {
    hide DoneRole, RoleBytes, TextBytes, RunBytes, Linted, FullReport, BuildCandidate, CompletedAndCleaned,
      CandidateBytes, IntBytes, CleanupBytes, Preview, FullPatch, AllChallenges, OnPlan, TimeBytes;
    var rec := DoneRole(r, DEV, d, 0, PENDING_CLEANUP);
    var tried := WithRole(r, DEV, rec);
    LeanPlan(r, request, tried);
    DoneFull(r, DEV, d, PENDING_CLEANUP);
    DoneSizes(DEV);
    FullCandidate(tried, request, 0);
    var c := BuildCandidate(tried, 0).value;
    assert TimeBytes(0) == 26 by { StartTime(); }
    FullCandidateBytes(m, c, request);
    CleanBytes(m, tried.(candidate := Some(c)), request);
    FewDigits(r.revision);
    PhaseNames();
    assert |PhaseName(r.phase)| <= 9;
  }

  lemma LeanPlan(r: Run, request: string, next: Run)
    requires Lean(r, request) && BindingOf(next) == BindingOf(r) && next.sourcePlan == r.sourcePlan
    ensures OnPlan(next, request) && Named(r) && forall c: Option<Candidate> :: OnPlan(next.(candidate := c), request)
  {
    hide RoleBytes;
  }

  /** A role from its claim to the point where only the completion of its cleanup is missing. */
  lemma UpToSent(m: Measures, request: string, o: Origin, events: seq<Event>, r: Run, n: nat, role: Role, d: InputDigest)
    returns (more: seq<Event>, next: Run)
    requires Under(m, request, o, events, r, n) && n <= 60 && Eligible(r, role) && RoleInputDigest(r, role) == Ok(d)
    requires TrialReady(m, request, r.roles, role)
    ensures Under(m, request, o, more, next, n + 7) && next.phase == r.phase && BindingOf(next) == BindingOf(r)
    ensures next.roles == r.roles.With(role, DoneRole(r, role, d, 0, SentCleanup(0, 0)))
  {
    hide Under, Eligible, RoleInputDigest, SpawnedAttempt, SubmittedRole, DoneRole, TrialPasses, CleanupMove,
      ClaimedCleanup, ClaimId, Fills, Finished, Lean;
    var m1, claimed := Claimed(m, request, o, events, r, n, role, d);
    Bound.GetWith(r.roles, role, OneAttempt(SpawnClaimed, d, SpawnedAttempt(BindingOf(r), role, d, 0)));
    var m2, worked := Worked(m, request, o, m1, claimed, n + 1, role, d);
    assert Lean(worked, request) by { UnderLean(m, request, o, m2, worked, n + 4); }
    ReadyPasses(m, request, worked, role, d);
    var m3, reported := Reported(m, request, o, m2, worked, n + 4, role, d);
    DoneKept(r, worked, role, d);
    DoneKept(r, reported, role, d);
    CleanupEffects(reported, role, d);
    Bound.GetWith(worked.roles, role, DoneRole(r, role, d, 0, PENDING_CLEANUP));
    var m4, held := CleanupOn(m, request, o, m3, reported, n + 5, role, ClaimCleanup(role, ATTEMPT, ClaimId(0)), d,
                              PENDING_CLEANUP, ClaimedCleanup(0, 0));
    DoneKept(r, held, role, d);
    CleanupEffects(held, role, d);
    Bound.GetWith(reported.roles, role, DoneRole(r, role, d, 0, ClaimedCleanup(0, 0)));
    more, next := CleanupOn(m, request, o, m4, held, n + 6, role, SendCleanup(role, ATTEMPT), d, ClaimedCleanup(0, 0), SentCleanup(0, 0));
    WithAgain(r.roles, role, claimed.roles, worked.roles, reported.roles, held.roles, next.roles);
  }

  lemma UnderLean(m: Measures, request: string, o: Origin, events: seq<Event>, r: Run, n: nat)
    requires Under(m, request, o, events, r, n)
    ensures Lean(r, request)
  {
    hide ReachesWithin, Working, Lean;
  }

  lemma DoneKept(r: Run, next: Run, role: Role, d: InputDigest)
    requires BindingOf(next) == BindingOf(r)
    ensures forall c :: DoneRole(next, role, d, 0, c) == DoneRole(r, role, d, 0, c)
  {
    hide DoneRole;
    forall c ensures DoneRole(next, role, d, 0, c) == DoneRole(r, role, d, 0, c) {
      DoneSame(r, next, role, d, c);
    }
  }

  lemma WithAgain(t: RoleTable, role: Role, t1: RoleTable, t2: RoleTable, t3: RoleTable, t4: RoleTable, t5: RoleTable)
    requires t1 == t.With(role, t1.Get(role)) && t2 == t1.With(role, t2.Get(role)) && t3 == t2.With(role, t3.Get(role))
    requires t4 == t3.With(role, t4.Get(role)) && t5 == t4.With(role, t5.Get(role))
    ensures t5 == t.With(role, t5.Get(role))
  {
  }

  // ---------------------------------------------------------------- the end of a role

  function NextPhase(role: Role): RunPhase {
    match role
    case PO => PhaseBa
    case BA => PhaseChallenge
    case QA => PhaseChallenge
    case DEV => PhaseSynthesis
  }

  function OwnPhase(role: Role): RunPhase {
    match role
    case PO => PhasePo
    case BA => PhaseBa
    case _ => PhaseChallenge
  }

  lemma CompleteCopy(r: Run, role: Role, rec: RoleRecord)
    requires r.condition == Active && r.phase == OwnPhase(role)
    requires CompleteCleanupRole(r.roles.Get(role), ATTEMPT, 0) == Ok(rec) && CompletedAndCleaned(rec)
    requires role == QA ==> !CompletedAndCleaned(r.roles.dev)
    requires role == DEV ==> CompletedAndCleaned(r.roles.qa)
    ensures Mutated(r, CompleteCleanup(role, ATTEMPT), 0) == Ok(WithRole(r, role, rec).(phase := NextPhase(role)))
  {
    hide BlamingMutation, SpawnMutation, RecordReportStep, WaitMutation, RetryMutation, ContinueMutation, CompileStep,
      ClaimApplyStep, AppliedStep, ReconcileApplyStep, AbandonStep, OffCourseStep, CancelStep;
    hide CompleteCleanupRole, CompletedAndCleaned;
    Bound.GetWith(r.roles, role, rec);
  }

  /** The last cleanup of a role leaves a valid run in the next phase. */
  lemma CompletedValid(r: Run, role: Role, rec: RoleRecord)
    requires Working(r, 0) && r.phase == OwnPhase(role) && r.condition == Active
    requires ValidRole(rec, role, BindingOf(r)) && CompletedAndCleaned(rec) && r.roles.Get(role).state != Pending
    requires !CompletedAndCleaned(r.roles.Get(role))
    requires role == DEV ==> CompletedAndCleaned(r.roles.qa)
    ensures ValidRun(Stamped(WithRole(r, role, rec).(phase := NextPhase(role)), 0))
    ensures role != DEV ==> Working(Stamped(WithRole(r, role, rec).(phase := NextPhase(role)), 0), 0)
  {
    hide ValidSourcePlan, ValidRole, BuildCandidate, ValidReceipts, CompletedAndCleaned;
    WorkingFacts(r, 0);
    Bound.GetWith(r.roles, role, rec);
    var next := Stamped(WithRole(r, role, rec).(phase := NextPhase(role)), 0);
    assert ValidRoles(next.roles, BindingOf(next));
  }

  lemma CompletedAccepted(r: Run, role: Role, d: InputDigest)
    requires Working(r, 0) && r.phase == OwnPhase(role) && r.condition == Active
            && r.roles.Get(role) == DoneRole(r, role, d, 0, SentCleanup(0, 0))
    requires role == QA ==> !CompletedAndCleaned(r.roles.dev)
    requires role == DEV ==> CompletedAndCleaned(r.roles.qa)
    ensures var next := Stamped(WithRole(r, role, DoneRole(r, role, d, 0, CompletedCleanup(0))).(phase := NextPhase(role)), 0);
            Perform(r, CompleteCleanup(role, ATTEMPT), 0) == Ok(next) && ValidRun(next) && (role != DEV ==> Working(next, 0))
  {
    hide ValidRun, ValidRole, CompletedAndCleaned, CompleteCleanupRole, Mutated, DoneAttempt, ReportOn, OwnPhase,
      NextPhase;
    var rec := DoneRole(r, role, d, 0, CompletedCleanup(0));
    CompletedEffect(r, role, d);
    DoneUnfinished(r, role, d, SentCleanup(0, 0));
    DoneUnfinished(r, role, d, CompletedCleanup(0));
    CompleteCopy(r, role, rec);
    CompletedValid(r, role, rec);
  }

  lemma FinishedRole(r: Run, role: Role, d: InputDigest)
    requires Named(r)
    ensures Finished(DoneRole(r, role, d, 0, CompletedCleanup(0)), role) && RoleBytes(DoneRole(r, role, d, 0, CompletedCleanup(0))) <= 36000
  {
    hide DoneAttempt, ReportOn, FullReport, RoleBytes, CleanupBytes, CompletedAndCleaned;
    DoneFull(r, role, d, CompletedCleanup(0));
    DoneUnfinished(r, role, d, CompletedCleanup(0));
    DoneSizes(role);
  }

  /** One role other than DEV, from its claim to the next phase. */
  lemma RoleDone(m: Measures, request: string, o: Origin, events: seq<Event>, r: Run, n: nat, role: Role, d: InputDigest)
    returns (more: seq<Event>, next: Run)
    requires Under(m, request, o, events, r, n) && n <= 60 && Eligible(r, role) && RoleInputDigest(r, role) == Ok(d)
    requires role != DEV && r.phase == OwnPhase(role) && r.roles.dev == EMPTY_ROLE
    ensures Under(m, request, o, more, next, n + 8) && next.phase == NextPhase(role) && BindingOf(next) == BindingOf(r)
    ensures next.roles == r.roles.With(role, next.roles.Get(role)) && Finished(next.roles.Get(role), role)
  {
    hide Under, Eligible, RoleInputDigest, DoneRole, Finished, Perform, Working, RoleBytes, CompletedAndCleaned,
      OwnPhase, NextPhase, CleanupBytes, ValidRun, Fills, SentCleanup, CompletedCleanup;
    assert TrialReady(m, request, r.roles, role);
    var m1, sent := UpToSent(m, request, o, events, r, n, role, d);
    UnderFacts(m, request, o, m1, sent, n + 7);
    DoneKept(r, sent, role, d);
    Bound.GetWith(r.roles, role, DoneRole(r, role, d, 0, SentCleanup(0, 0)));
    assert !CompletedAndCleaned(EMPTY_ROLE) by { EmptyUnfinished(); }
    CompletedAccepted(sent, role, d);
    FinishedRole(sent, role, d);
    var rec := DoneRole(sent, role, d, 0, CompletedCleanup(0));
    more, next := Proceed(m, request, o, m1, sent, n + 7, CompleteCleanup(role, ATTEMPT), role, NextPhase(role), rec);
    Bound.GetWith(sent.roles, role, rec);
    WithThrice(r.roles, role, DoneRole(r, role, d, 0, SentCleanup(0, 0)), rec, rec);
  }

  lemma EmptyUnfinished()
    ensures !CompletedAndCleaned(EMPTY_ROLE)
  {
  }

  // ---------------------------------------------------------------- compiling

  /** All four roles are done, and the run is about to get its candidate. */
  predicate Synthesized(r: Run, request: string) {
    && ValidRun(r) && r.phase == PhaseSynthesis && OnPlan(r, request) && r.createdAt == r.updatedAt == 0
      && 10 <= r.revision <= 98 && r.blocker == ""
    && r.condition == Active && r.candidate.None? && r.synthesisBlocker.None? && r.receipts == [] && r.applyOutbox == EmptyOutbox(0)
    && Finished(r.roles.po, PO) && Finished(r.roles.ba, BA) && Finished(r.roles.qa, QA) && Finished(r.roles.dev, DEV)
  }

  function Compiled(r: Run, c: Candidate): Run {
    r.(phase := PhaseReview, candidate := Some(c), synthesisBlocker := None, applyOutbox := EmptyOutbox(0), blocker := "")
  }

  lemma CompiledValid(r: Run, request: string, c: Candidate)
    requires Synthesized(r, request) && BuildCandidate(r, 0) == Ok(c) && c.compiledAt == 0
    ensures ValidRun(Stamped(Compiled(r, c), 0))
  {
    hide ValidSourcePlan, ValidRole, BuildCandidate, ValidReceipts, CompletedAndCleaned, Finished, OnPlan;
    var next := Stamped(Compiled(r, c), 0);
    Refusals.BuildStable(r, next, 0);
    Liveness.LaterReceipts(r.receipts, r.revision);
    assert ValidRoles(next.roles, BindingOf(next));
  }

  lemma CompileAccepted(r: Run, request: string)
    requires Synthesized(r, request)
    ensures BuildCandidate(r, 0).Ok?
    ensures var c := BuildCandidate(r, 0).value;
            c.compiledAt == 0 && !c.ready && Perform(r, CompileCandidate, 0) == Ok(Stamped(Compiled(r, c), 0))
  {
    hide ValidRun, BuildCandidate, LocalMutation, BlamingMutation, SpawnMutation, RecordReportStep, WaitMutation,
      RetryMutation, ContinueMutation, ClaimApplyStep, AppliedStep, ReconcileApplyStep, AbandonStep, OffCourseStep,
      CancelStep, OnPlan, FullReport, RoleBytes, CompletedAndCleaned, Preview, FullPatch, AllChallenges;
    FullCandidate(r, request, 0);
    CompiledValid(r, request, BuildCandidate(r, 0).value);
    assert Mutated(r, CompileCandidate, 0) == CompileStep(r, 0);
  }

  /** What the finished run takes up. */
  lemma CompiledBytes(m: Measures, r: Run, request: string)
    requires Synthesized(r, request) && Fills(m, request)
    ensures BuildCandidate(r, 0).Ok?
    ensures RunBytes(m, Stamped(Compiled(r, BuildCandidate(r, 0).value), 0)) == MAX_RUN_BYTES && RunFits(m, r)
  {
    hide ValidRun, RoleBytes, TextBytes, RunBytes, Linted, FullReport, BuildCandidate, CompletedAndCleaned,
      CandidateBytes, IntBytes, Preview, FullPatch, AllChallenges, OnPlan, TimeBytes, PhaseName;
    FullCandidate(r, request, 0);
    var c := BuildCandidate(r, 0).value;
    assert TimeBytes(0) == 26 by { StartTime(); }
    FullCandidateBytes(m, c, request);
    var next := Stamped(Compiled(r, c), 0);
    assert OnPlan(next, request) by { SamePlan(r, request, next); }
    CleanBytes(m, next, request);
    CleanBytes(m, r, request);
    FewDigits(r.revision);
    FewDigits(r.revision + 1);
    PhaseNames();
  }

  lemma SamePlan(r: Run, request: string, next: Run)
    requires OnPlan(r, request) && BindingOf(next) == BindingOf(r) && next.sourcePlan == r.sourcePlan
    ensures OnPlan(next, request)
  {
  }

  lemma DevDone(m: Measures, request: string, o: Origin, events: seq<Event>, r: Run, n: nat, d: InputDigest)
    returns (more: seq<Event>, next: Run)
    requires Under(m, request, o, events, r, n) && 10 <= n <= 60 && Eligible(r, DEV) && RoleInputDigest(r, DEV) == Ok(d)
    requires r.phase == PhaseChallenge && TrialReady(m, request, r.roles, DEV)
    ensures ReachesWithin(m, o, more, next) && Synthesized(next, request)
  {
    hide Under, Eligible, RoleInputDigest, DoneRole, Finished, Fills, ReachesWithin, Synthesized, SentCleanup;
    var m1, sent := UpToSent(m, request, o, events, r, n, DEV, d);
    DoneKept(r, sent, DEV, d);
    more, next := DevEnds(m, request, o, m1, sent, n + 7, d);
  }

  lemma DevEnds(m: Measures, request: string, o: Origin, events: seq<Event>, r: Run, n: nat, d: InputDigest)
    returns (more: seq<Event>, next: Run)
    requires Under(m, request, o, events, r, n) && 10 <= n <= 80 && r.phase == PhaseChallenge && TrialReady(m, request, r.roles, DEV)
    requires r.roles.dev == DoneRole(r, DEV, d, 0, SentCleanup(0, 0))
    ensures ReachesWithin(m, o, more, next) && Synthesized(next, request)
  {
    hide Under, DoneRole, Finished, Perform, Fills, ReachesWithin, RunFits, SentCleanup, TrialFits, ReportFits,
      Synthesized, RunBytes, IntBytes, BuildCandidate;
    next := DevCompletes(m, request, o, events, r, n, d);
    CompiledBytes(m, next, request);
    more := TakeUnder(m, request, o, events, r, n, CompleteCleanup(DEV, ATTEMPT), next);
  }

  lemma DevCompletes(m: Measures, request: string, o: Origin, events: seq<Event>, r: Run, n: nat, d: InputDigest) returns (next: Run)
    requires Under(m, request, o, events, r, n) && 10 <= n <= 80 && r.phase == PhaseChallenge
    requires Finished(r.roles.po, PO) && Finished(r.roles.ba, BA) && Finished(r.roles.qa, QA)
    requires r.roles.dev == DoneRole(r, DEV, d, 0, SentCleanup(0, 0))
    ensures Perform(r, CompleteCleanup(DEV, ATTEMPT), 0) == Ok(next) && Synthesized(next, request)
  {
    hide Under, DoneRole, Finished, Perform, Working, RoleBytes, CompletedAndCleaned, ValidRun, SentCleanup,
      CompletedCleanup, Synthesized;
    UnderFacts(m, request, o, events, r, n);
    assert CompletedAndCleaned(r.roles.qa) by { FinishedCleaned(r.roles.qa, QA); }
    CompletedAccepted(r, DEV, d);
    FinishedRole(r, DEV, d);
    var rec := DoneRole(r, DEV, d, 0, CompletedCleanup(0));
    next := Stamped(WithRole(r, DEV, rec).(phase := PhaseSynthesis), 0);
    SentSynthesized(m, request, o, events, r, n, rec, next);
  }

  lemma FinishedCleaned(rec: RoleRecord, role: Role)
    requires Finished(rec, role)
    ensures CompletedAndCleaned(rec)
  {
    hide FullRole, RoleBytes, CompletedAndCleaned;
  }

  lemma SentSynthesized(m: Measures, request: string, o: Origin, events: seq<Event>, r: Run, n: nat, rec: RoleRecord, next: Run)
    requires Under(m, request, o, events, r, n) && 10 <= n <= 90 && Finished(rec, DEV) && ValidRun(next)
    requires Finished(r.roles.po, PO) && Finished(r.roles.ba, BA) && Finished(r.roles.qa, QA)
    requires next == Stamped(WithRole(r, DEV, rec).(phase := PhaseSynthesis), 0)
    ensures Synthesized(next, request)
  {
    hide ReachesWithin, Working, Finished, RoleBytes, ValidRun, TextBytes, OnPlan;
    UnderLean(m, request, o, events, r, n);
    SamePlan(r, request, next);
  }

  // ---------------------------------------------------------------- the whole run

  lemma Creates(request: string)
    ensures var o := Origin("planning-run-00000001", Bound.PlanOn(request), 0); var created := CreateRun(o.id, o.plan, o.at);
            created.Ok? && Lean(created.value, request) && Working(created.value, 0) && created.value.phase == PhasePo
              && created.value.revision == 1
            && created.value.roles == RoleTable(EMPTY_ROLE, EMPTY_ROLE, EMPTY_ROLE, EMPTY_ROLE)
  {
    hide ValidSourcePlan, ValidCandidate, RoleBytes, Bound.PlanOn, ValidAttemptBinding, ValidAttemptLifecycle;
    Bound.PlannablePlan(request);
    PlanNamed(request);
    EmptyRoleBytes();
  }

  lemma PlanNamed(request: string)
    ensures Bound.PlanOn(request).def.id == "plan-00000001" && Bound.PlanOn(request).revision == 1
  {
  }

  lemma StartUnder(m: Measures, request: string) returns (o: Origin, r: Run)
    requires ShortRequest(request)
    ensures Under(m, request, o, [], r, 0) && r.phase == PhasePo && r.roles == RoleTable(EMPTY_ROLE, EMPTY_ROLE, EMPTY_ROLE, EMPTY_ROLE)
    ensures o == Origin("planning-run-00000001", Bound.PlanOn(request), 0)
  {
    hide CreateRun, Lean, Working, RunFits, PlanBytes, TextBytes, Bound.PlanOn, PerformWithin;
    o := Origin("planning-run-00000001", Bound.PlanOn(request), 0);
    Creates(request);
    PlanOnBytes(request, 0);
    EmptyPlanBytes(0);
    r := CreateRun(o.id, o.plan, o.at).value;
    LeanFits(m, r, request);
  }

  lemma Input(r: Run, role: Role)
    requires role != PO ==> r.roles.po.report.Some? && r.roles.po.outputDigest.Some?
    requires role in {QA, DEV} ==> r.roles.ba.report.Some? && r.roles.ba.outputDigest.Some?
    ensures RoleInputDigest(r, role).Ok?
  {
  }

  lemma OutputThere(m: Measures, request: string, o: Origin, events: seq<Event>, r: Run, n: nat, role: Role)
    requires Under(m, request, o, events, r, n) && Finished(r.roles.Get(role), role)
    ensures r.roles.Get(role).report.Some? && r.roles.Get(role).outputDigest.Some?
  {
    hide ReachesWithin, Lean, ValidRun, ValidAttemptBinding, ValidAttemptLifecycle, ReportFor, RoleBytes,
      CompletedAndCleaned, FullReport;
    assert ValidRun(r);
    Safety.ValidGet(r, role);
  }

  /** A request of so many bytes and at most 4000 characters. */
  function Request(n: nat): (request: string)
    ensures |request| == n / 3 + n % 3
  {
    Bound.Wide('\U{672c}', n / 3) + Bound.Wide('x', n % 3)
  }

  lemma RequestLength(n: nat)
    requires 1 <= n <= 7391
    ensures 1 <= |Bound.PlanOn(Request(n)).def.request| <= 4000
  {
  }

  lemma RequestBytes(n: nat)
    ensures TextBytes(Request(n)) == n
  {
    hide TextBytes;
    WideBytes('\U{672c}', n / 3);
    WideBytes('x', n % 3);
    TextTogether(Bound.Wide('\U{672c}', n / 3), Bound.Wide('x', n % 3));
  }

  lemma UpToChallenge(m: Measures, request: string) returns (o: Origin, events: seq<Event>, r: Run)
    requires ShortRequest(request)
    ensures Under(m, request, o, events, r, 16) && o.plan == Bound.PlanOn(request) && r.phase == PhaseChallenge
    ensures Finished(r.roles.po, PO) && Finished(r.roles.ba, BA) && r.roles.qa == EMPTY_ROLE && r.roles.dev == EMPTY_ROLE
  {
    hide Under, RoleInputDigest, Finished, Bound.PlanOn, ShortRequest, Working, ValidRun, RoleBytes, TextBytes, Fills;
    var start;
    o, start := StartUnder(m, request);
    UnderFacts(m, request, o, [], start, 0);
    Input(start, PO);
    var m1, r1 := RoleDone(m, request, o, [], start, 0, PO, RoleInputDigest(start, PO).value);
    UnderFacts(m, request, o, m1, r1, 8);
    OutputThere(m, request, o, m1, r1, 8, PO);
    Input(r1, BA);
    events, r := RoleDone(m, request, o, m1, r1, 8, BA, RoleInputDigest(r1, BA).value);
  }

  lemma UpToSynthesis(m: Measures, request: string) returns (o: Origin, events: seq<Event>, r: Run)
    requires ShortRequest(request) && Fills(m, request)
    ensures ReachesWithin(m, o, events, r) && Synthesized(r, request) && o.plan == Bound.PlanOn(request)
  {
    hide Under, RoleInputDigest, Finished, ReachesWithin, Synthesized, Bound.PlanOn, Fills, ShortRequest, Working,
      ValidRun, RoleBytes;
    var m2, r2;
    o, m2, r2 := UpToChallenge(m, request);
    UnderFacts(m, request, o, m2, r2, 16);
    OutputThere(m, request, o, m2, r2, 16, PO);
    OutputThere(m, request, o, m2, r2, 16, BA);
    Input(r2, QA);
    var m3, r3 := RoleDone(m, request, o, m2, r2, 16, QA, RoleInputDigest(r2, QA).value);
    UnderFacts(m, request, o, m3, r3, 24);
    Input(r3, DEV);
    events, r := DevDone(m, request, o, m3, r3, 24, RoleInputDigest(r3, DEV).value);
  }

  /** A run the program can be brought to that fills its 256 KiB to the last byte: in review, all workers gone,
      and every step refused, so that it can neither be applied nor leave the course nor be cancelled. */
  lemma StuckRun(m: Measures) returns (o: Origin, events: seq<Event>, r: Run)
    requires m.readiness(Linted()) < 7391
    ensures ReachesWithin(m, o, events, r) && RunBytes(m, r) == MAX_RUN_BYTES == 262144
    ensures 1 <= |o.plan.def.request| <= 4000
    ensures r.phase == PhaseReview && r.condition == Active && !UnresolvedWorker(r)
    ensures forall s, at :: PerformWithin(m, r, s, at).Err?
  {
    hide ReachesWithin, Synthesized, TextBytes, RunBytes, Linted, Bound.PlanOn, PerformWithin, BuildCandidate,
      Perform, ValidRun, Request, UnresolvedWorker, IntBytes, TimeBytes, Compiled, SizesRight,
      PlanningLimits.PlanningLength.Shaped;
    var n := 7391 - m.readiness(Linted());
    var request := Request(n);
    RequestBytes(n);
    assert 1 <= |Bound.PlanOn(request).def.request| <= 4000 by { RequestLength(n); }
    var before, made;
    o, before, made := UpToSynthesis(m, request);
    CompileAccepted(made, request);
    CompiledBytes(m, made, request);
    var c := BuildCandidate(made, 0).value;
    r := Stamped(Compiled(made, c), 0);
    events := before + [Event(CompileCandidate, 0)];
    CompiledTaken(m, o, before, made, r);
    ReachedFacts(m, o, events, r);
    assert InReview(r) && r.updatedAt == 0 by { CompiledReview(made, request, c); }
    assert TimeBytes(0) == 26 by { StartTime(); }
    ReviewResolved(r);
    InReviewFacts(r);
    MoreDigits(r.revision);
    StuckInReview(m, o, events, r);
  }

  lemma CompiledTaken(m: Measures, o: Origin, events: seq<Event>, r: Run, next: Run)
    requires ReachesWithin(m, o, events, r) && RunFits(m, r) && RunFits(m, next) && Perform(r, CompileCandidate, 0) == Ok(next)
    ensures ReachesWithin(m, o, events + [Event(CompileCandidate, 0)], next)
  {
    hide ReachesWithin, RunFits, Perform, TrialFits, ReportFits;
    WithinExtends(m, o, events, r, Event(CompileCandidate, 0), next);
  }

  lemma CompiledReview(r: Run, request: string, c: Candidate)
    requires Synthesized(r, request)
    ensures InReview(Stamped(Compiled(r, c), 0)) && Stamped(Compiled(r, c), 0).updatedAt == 0
  {
    hide ValidRun, Finished, OnPlan;
  }

  lemma MoreDigits(n: int)
    requires n >= 1
    ensures IntBytes(n + 1) >= IntBytes(n)
  {
    hide Digits;
    DigitsGrow(n);
  }
}
