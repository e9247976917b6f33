/** A Planning Run: its record, and the rules its validator enforces on every stored state. */
module PlanningRuns {
  import opened Errors
  import opened Wrappers
  import opened DeliveryPlans
  import Phases = DeliveryPlanPhases

  datatype Role = PO | BA | QA | DEV
  datatype RunPhase = PhasePo | PhaseBa | PhaseChallenge | PhaseSynthesis | PhaseReview | PhaseApplied | PhaseClosed
  datatype Condition = Active | ResourceWait | AwaitingInput | Reconciling | OffCourse | RunFailed | RunCanceled
  datatype RoleState = Pending | SpawnClaimed | DispatchClaimed | Dispatched | Completed | RoleNeedsInput | RoleFailed | RoleReconcile
  datatype AttemptState = Spawning | Dispatching | Submitted | Finished | Crashed | AttemptReconcile
  datatype Outcome = NoOutcome | OutComplete | OutNeedsInput | OutBlocked | OutFailed | OutCrashed
  datatype LeaseState = LeaseClaimed | LeaseBound | LeaseReconcile | LeaseAdopted | LeaseClosed
  datatype Observation = NothingSeen | ExactPane | PresentUnattestable | ScopeAndPaneAbsent
  datatype StopState = StopClaimed | StopSent | StopComplete
  datatype CleanupState = CleanupPending | CleanupClaimed | CleanupSent | CleanupComplete | CleanupReconcile
  datatype RecoveryOutcome = NoRecovery | WorkerAbsent | ExactWorker
  datatype ApplyState = Held | ApplyClaimed | ApplyReconcile | Abandoned | ApplyApplied
  datatype ContinueKind = ResourceRetry | CleanupOnly

  const MAX_BIND_MS := 5 * 60 * 1000
  const MAX_RECEIPTS_PER_KIND := 6
  const MAX_RECEIPTS := 12
  const MAX_CLEANUP_RECOVERIES := 3

  // ---------------------------------------------------------------- reports and digests

  datatype Status = StComplete | StNeedsInput | StBlocked | StFailed

  function StatusName(s: Status): string {
    match s
    case StComplete => "complete"
    case StNeedsInput => "needs_input"
    case StBlocked => "blocked"
    case StFailed => "failed"
  }

  datatype Artifact = ArtPo(po: PoArtifact) | ArtBa(ba: BaArtifact) | ArtQa(qa: QaArtifact) | ArtDev(dev: DevArtifact)

  /** Digests are represented by what they were computed from. */
  datatype InputDigest = InputDigest(runId: string, planId: string, planRevision: int, planDigest: Definition,
                                     role: Role, common: CommonInput)
  datatype CommonInput =
    | PoInput(plan: Plan)
    | BaInput(plan: Plan, po: Artifact, poOutput: Report)
    | PeerInput(plan: Plan, po: Artifact, ba: Artifact, poOutput: Report, baOutput: Report)

  /** A role report; its output digest is the report itself. */
  datatype Report = Report(runId: string, planId: string, planRevision: int, role: Role, attemptId: string,
                           inputDigest: InputDigest, status: Status, artifact: Artifact, challenges: seq<string>,
                           evidence: seq<string>)

  // ---------------------------------------------------------------- attempts

  datatype LeaseToken = LeaseToken(runId: string, planId: string, planRevision: int, planDigest: Definition, role: Role,
                                   attemptId: string, inputDigest: InputDigest, contextDigest: string, launchDigest: string)
  datatype Session = Session(token: LeaseToken)
  datatype Scope = Scope(session: Session, contextDigest: string, launchDigest: string)
  datatype LeaseBinding = LeaseBinding(leaseId: LeaseToken, session: Session, contextDigest: string, scopeUnit: Scope,
                                       scopeDigest: Scope, launchDigest: string, bindDeadlineAt: int)

  datatype Pane = Pane(sessionCreatedAt: int, paneId: string, tmuxPaneId: string, panePid: int, paneTty: string)
  datatype BoundPane = BoundPane(pane: Pane, boundAt: int)
  datatype Observed = Observed(status: Observation, bound: Option<BoundPane>, observedAt: Option<int>)
  datatype StopRequest = StopRequest(state: StopState, claimId: string, claimedAt: int, sentAt: Option<int>,
                                     completedAt: Option<int>, observation: Observation)
  datatype SpawnLease = SpawnLease(binding: LeaseBinding, claimedAt: int, state: LeaseState, observed: Observed,
                                   stop: Option<StopRequest>, error: string)

  datatype Worker = Worker(session: Session, pane: Pane, codexPid: int, rolloutId: string, sourceId: string,
                           commandDigest: string, scopeUnit: Scope, scopeDigest: Scope)
  datatype Dispatch = Dispatch(worker: Worker, rolloutPath: string, rolloutStartOffset: int, promptDigest: string)

  datatype Recovery = Recovery(outcome: RecoveryOutcome, claimId: string, observedAt: int)
  datatype Cleanup = Cleanup(state: CleanupState, claimId: string, claimedAt: Option<int>, sentAt: Option<int>,
                             completedAt: Option<int>, error: string, recoveryOutcome: RecoveryOutcome,
                             recoveredAt: Option<int>, recoveryCount: int, history: seq<Recovery>)

  /** One attempt of a role; `dispatch` is present once a worker was adopted. */
  datatype Attempt = Attempt(id: string, kind: Role, state: AttemptState, inputDigest: InputDigest, lease: SpawnLease,
                             dispatch: Option<Dispatch>, claimedAt: int, dispatchClaimedAt: Option<int>,
                             submittedAt: Option<int>, finishedAt: Option<int>, outcome: Outcome, summary: string,
                             error: string, cleanup: Option<Cleanup>)

  datatype RoleRecord = RoleRecord(state: RoleState, inputDigest: Option<InputDigest>, attempts: seq<Attempt>,
                                   report: Option<Report>, outputDigest: Option<Report>)

  datatype RoleTable = RoleTable(po: RoleRecord, ba: RoleRecord, qa: RoleRecord, dev: RoleRecord) {
    function Get(role: Role): RoleRecord {
      match role
      case PO => po
      case BA => ba
      case QA => qa
      case DEV => dev
    }

    function With(role: Role, record: RoleRecord): RoleTable {
      match role
      case PO => this.(po := record)
      case BA => this.(ba := record)
      case QA => this.(qa := record)
      case DEV => this.(dev := record)
    }
  }

  // ---------------------------------------------------------------- candidate, outbox, receipts, run

  datatype CandidatePatch = CandidatePatch(po: PoArtifact, ba: BaArtifact, dev: DevArtifact, qa: QaArtifact, questions: seq<string>)
  datatype Outputs = Outputs(po: Report, ba: Report, qa: Report, dev: Report)
  datatype CandidateDigest = CandidateDigest(runId: string, planId: string, planRevision: int, planDigest: Definition,
                                             patch: CandidatePatch, outputs: Outputs)
  datatype Candidate = Candidate(patch: CandidatePatch, digest: CandidateDigest, previewPlanDigest: Definition, ready: bool,
                                 challenges: seq<string>, outputs: Outputs, compiledAt: int)

  datatype ApplyOutbox = ApplyOutbox(state: ApplyState, candidateDigest: Option<CandidateDigest>, claimId: string,
                                     claimedAt: Option<int>, appliedPlanRevision: Option<int>,
                                     appliedPlanDigest: Option<Definition>, appliedAt: Option<int>,
                                     receiptAbsent: bool, error: string, updatedAt: int)
  datatype SynthesisBlocker = SynthesisBlocker(code: Error, reason: string, recordedAt: int)
  datatype Receipt = Receipt(operationId: string, kind: ContinueKind, role: Role, attemptId: string, claimId: string,
                             recoveryOutcome: RecoveryOutcome, requestedStoreRevision: int, requestedRunRevision: int,
                             authorizedAt: int)

  datatype Run = Run(id: string, revision: int, phase: RunPhase, condition: Condition, planId: string, planRevision: int,
                     planDigest: Definition, sourcePlan: Plan, roles: RoleTable, candidate: Option<Candidate>,
                     applyOutbox: ApplyOutbox, synthesisBlocker: Option<SynthesisBlocker>, receipts: seq<Receipt>,
                     blocker: string, createdAt: int, updatedAt: int)

  /** The part of a run that never changes and that attempts and reports are bound to. */
  datatype RunBinding = RunBinding(runId: string, planId: string, planRevision: int, planDigest: Definition)

  function BindingOf(r: Run): RunBinding {
    RunBinding(r.id, r.planId, r.planRevision, r.planDigest)
  }

  const EMPTY_ROLE := RoleRecord(Pending, None, [], None, None)

  function EmptyOutbox(at: int): ApplyOutbox {
    ApplyOutbox(Held, None, "", None, None, None, None, false, "", at)
  }

  const NO_OBSERVATION := Observed(NothingSeen, None, None)

  // ---------------------------------------------------------------- input digests

  function RoleCommonInput(r: Run, role: Role): Result<CommonInput> {
    match role
    case PO => Ok(PoInput(r.sourcePlan))
    case BA =>
      if r.roles.po.report.None? || r.roles.po.outputDigest.None? then Err(PlanningPoReportRequired) else
      Ok(BaInput(r.sourcePlan, r.roles.po.report.value.artifact, r.roles.po.outputDigest.value))
    case _ =>
      if r.roles.po.report.None? || r.roles.po.outputDigest.None? then Err(PlanningPoReportRequired) else
      if r.roles.ba.report.None? || r.roles.ba.outputDigest.None? then Err(PlanningBaReportRequired) else
      Ok(PeerInput(r.sourcePlan, r.roles.po.report.value.artifact, r.roles.ba.report.value.artifact,
                   r.roles.po.outputDigest.value, r.roles.ba.outputDigest.value))
  }

  function RoleInputDigest(r: Run, role: Role): Result<InputDigest> {
    var common :- RoleCommonInput(r, role);
    Ok(InputDigest(r.id, r.planId, r.planRevision, r.planDigest, role, common))
  }

  function ExpectedLeaseBinding(b: RunBinding, role: Role, attemptId: string, inputDigest: InputDigest,
                                contextDigest: string, launchDigest: string, bindDeadlineAt: int): LeaseBinding {
    var token := LeaseToken(b.runId, b.planId, b.planRevision, b.planDigest, role, attemptId, inputDigest, contextDigest, launchDigest);
    var session := Session(token);
    var scope := Scope(session, contextDigest, launchDigest);
    LeaseBinding(token, session, contextDigest, scope, scope, launchDigest, bindDeadlineAt)
  }

  // ---------------------------------------------------------------- leases

  predicate NotBefore(late: Option<int>, early: int) {
    late.Some? ==> early <= late.value
  }

  predicate ValidStop(s: StopRequest) {
    && s.claimId != "" && s.observation in {NothingSeen, ScopeAndPaneAbsent}
    && (s.state == StopClaimed ==> s.sentAt.None? && s.completedAt.None? && s.observation == NothingSeen)
    && (s.state == StopSent ==> s.sentAt.Some? && s.completedAt.None? && s.observation == NothingSeen)
    && (s.state == StopComplete ==> s.completedAt.Some? && s.observation == ScopeAndPaneAbsent)
    && NotBefore(s.sentAt, s.claimedAt)
    && NotBefore(s.completedAt, if s.sentAt.Some? then s.sentAt.value else s.claimedAt)
  }

  predicate ValidPane(p: Pane) {
    p.paneId != "" && p.tmuxPaneId != "" && p.panePid >= 1 && p.paneTty != ""
  }

  predicate ValidObserved(o: Observed) {
    && (o.bound.Some? ==> ValidPane(o.bound.value.pane))
    && (o.status == NothingSeen ==> o.bound.None? && o.observedAt.None?)
    && (o.status == ExactPane ==> o.bound.Some? && o.observedAt.Some?)
    && (o.status in {PresentUnattestable, ScopeAndPaneAbsent} ==> o.observedAt.Some?)
  }

  predicate ValidLease(l: SpawnLease, expected: LeaseBinding) {
    && l.binding == expected
    && 0 < l.binding.bindDeadlineAt - l.claimedAt <= MAX_BIND_MS
    && ValidObserved(l.observed)
    && (l.stop.Some? ==> ValidStop(l.stop.value) && l.claimedAt <= l.stop.value.claimedAt)
    && NotBefore(l.observed.observedAt, l.claimedAt)
    && (l.observed.bound.Some? ==> l.claimedAt <= l.observed.bound.value.boundAt <= l.binding.bindDeadlineAt)
    && (l.state == LeaseClaimed ==> l.observed.status == NothingSeen && l.stop.None? && l.error == "")
    && (l.state in {LeaseBound, LeaseAdopted} ==> l.observed.status == ExactPane && l.stop.None? && l.error == "")
    && (l.state == LeaseReconcile ==>
          && l.observed.status == PresentUnattestable && l.error != ""
          && (l.stop.Some? ==> l.stop.value.state in {StopClaimed, StopSent}))
    && (l.state == LeaseClosed ==>
          && l.observed.status == ScopeAndPaneAbsent && l.error != ""
          && (l.stop.Some? ==> l.stop.value.state == StopComplete))
  }

  // ---------------------------------------------------------------- worker cleanup

  predicate ValidHistory(h: seq<Recovery>) {
    && (forall i :: 0 <= i < |h| ==> h[i].outcome != NoRecovery && (h[i].outcome == WorkerAbsent <==> h[i].claimId == ""))
    && (forall i, j :: 0 <= i < j < |h| ==> h[i].observedAt <= h[j].observedAt)
    && (forall i, j :: 0 <= i < j < |h| && h[i].outcome == ExactWorker && h[j].outcome == ExactWorker ==> h[i].claimId != h[j].claimId)
  }

  predicate RecoveredMatches(c: Cleanup) {
    if c.history == [] then c.recoveryOutcome == NoRecovery && c.recoveredAt.None?
    else c.recoveryOutcome == c.history[|c.history| - 1].outcome && c.recoveredAt == Some(c.history[|c.history| - 1].observedAt)
  }

  predicate ValidCleanup(c: Cleanup) {
    && 0 <= c.recoveryCount <= MAX_CLEANUP_RECOVERIES && |c.history| == c.recoveryCount
    && ValidHistory(c.history) && RecoveredMatches(c)
    && (c.state == CleanupPending ==>
          c.claimId == "" && c.claimedAt.None? && c.sentAt.None? && c.completedAt.None? && c.error == "" && c.recoveryCount == 0)
    && (c.state == CleanupClaimed ==>
          && c.claimId != "" && c.claimedAt.Some? && c.sentAt.None? && c.completedAt.None? && c.error == ""
          && c.recoveryOutcome != WorkerAbsent)
    && (c.state == CleanupSent ==>
          && c.claimId != "" && c.claimedAt.Some? && c.sentAt.Some? && c.completedAt.None? && c.error == ""
          && c.recoveryOutcome != WorkerAbsent)
    && (c.state == CleanupComplete ==>
          && c.completedAt.Some? && c.error == ""
          && (if c.recoveryOutcome == WorkerAbsent then c.claimId == "" && c.claimedAt.None? && c.sentAt.None?
              else c.claimId != "" && c.claimedAt.Some? && c.sentAt.Some?))
    && (c.state == CleanupReconcile ==> c.error != "" && c.completedAt.None? && c.recoveryOutcome != WorkerAbsent)
  }

  // ---------------------------------------------------------------- attempts and roles

  predicate ValidAttemptBinding(a: Attempt, role: Role, b: RunBinding) {
    && a.id != "" && a.kind == role
    && ValidLease(a.lease, ExpectedLeaseBinding(b, role, a.id, a.inputDigest, a.lease.binding.contextDigest,
                                                a.lease.binding.launchDigest, a.lease.binding.bindDeadlineAt))
    && (a.cleanup.Some? ==> ValidCleanup(a.cleanup.value))
  }

  /** The adopted worker is the exact pane the lease observed. */
  predicate WorkerMatchesLease(w: Worker, l: SpawnLease) {
    && l.state == LeaseAdopted && l.observed.status == ExactPane && l.observed.bound.Some?
    && w.session == l.binding.session && w.pane == l.observed.bound.value.pane
    && w.commandDigest == l.binding.launchDigest && w.scopeUnit == l.binding.scopeUnit && w.scopeDigest == l.binding.scopeDigest
  }

  /** Nothing recorded yet about how the attempt ended. */
  predicate StillRunning(a: Attempt) {
    a.finishedAt.None? && a.outcome == NoOutcome && a.summary == "" && a.error == "" && a.cleanup.None?
  }

  predicate ValidAttemptLifecycle(a: Attempt) {
    var bound := a.dispatch.Some?;
    && (if bound then WorkerMatchesLease(a.dispatch.value.worker, a.lease) else a.lease.state != LeaseAdopted)
    && (a.cleanup.Some? ==> a.lease.state == LeaseAdopted && a.lease.stop.None?)
    && (a.state == Spawning ==>
          a.lease.state in {LeaseClaimed, LeaseBound} && !bound && a.dispatchClaimedAt.None? && a.submittedAt.None? && StillRunning(a))
    && (a.state == Dispatching ==> bound && a.dispatchClaimedAt.Some? && a.submittedAt.None? && StillRunning(a))
    && (a.state == Submitted ==> bound && a.dispatchClaimedAt.Some? && a.submittedAt.Some? && StillRunning(a))
    && (a.state == Finished ==>
          && a.lease.state == LeaseAdopted && a.finishedAt.Some? && a.outcome != NoOutcome && a.summary != ""
          && (bound <==> a.cleanup.Some?))
    && (a.state == Crashed ==>
          a.finishedAt.Some? && a.outcome == OutCrashed && a.summary != "" && (!bound ==> a.lease.state == LeaseClosed))
    && (a.state == AttemptReconcile ==>
          && a.finishedAt.Some? && a.outcome == NoOutcome && a.summary != "" && a.error != ""
          && (!bound ==> a.lease.state == LeaseReconcile))
  }

  /** The attempt state that goes with a role state while the attempt is under way. */
  function AttemptStateFor(s: RoleState): AttemptState
    requires s in {SpawnClaimed, DispatchClaimed, Dispatched}
  {
    match s
    case SpawnClaimed => Spawning
    case DispatchClaimed => Dispatching
    case Dispatched => Submitted
  }

  predicate ArtifactFits(a: Artifact, role: Role) {
    match role
    case PO => a.ArtPo?
    case BA => a.ArtBa?
    case QA => a.ArtQa?
    case DEV => a.ArtDev?
  }

  predicate ReportFor(report: Report, b: RunBinding, role: Role, attemptId: string, inputDigest: InputDigest) {
    && report.runId == b.runId && report.planId == b.planId && report.planRevision == b.planRevision
    && report.role == role && report.attemptId == attemptId && report.inputDigest == inputDigest
    && ArtifactFits(report.artifact, role)
  }

  predicate ValidRole(rec: RoleRecord, role: Role, b: RunBinding) {
    && |rec.attempts| <= 1
    && (forall a :: a in rec.attempts ==>
          && ValidAttemptBinding(a, role, b) && ValidAttemptLifecycle(a)
          && (rec.inputDigest.Some? ==> a.inputDigest == rec.inputDigest.value))
    && (if rec.report.None? then rec.outputDigest.None?
        else
          && |rec.attempts| == 1 && rec.inputDigest.Some?
          && ReportFor(rec.report.value, b, role, rec.attempts[0].id, rec.inputDigest.value)
          && rec.outputDigest == rec.report)
    && (rec.state == Pending ==> rec.inputDigest.None? && rec.attempts == [] && rec.report.None?)
    && (rec.state in {SpawnClaimed, DispatchClaimed, Dispatched} ==>
          && rec.inputDigest.Some? && |rec.attempts| == 1 && rec.attempts[0].state == AttemptStateFor(rec.state)
          && rec.report.None?)
    && (rec.state == Completed ==>
          && rec.report.Some? && rec.report.value.status == StComplete
          && |rec.attempts| == 1 && rec.attempts[0].state == Finished && rec.attempts[0].outcome == OutComplete)
    && (rec.state == RoleNeedsInput ==>
          && |rec.attempts| == 1 && rec.attempts[0].state == Finished && rec.attempts[0].outcome == OutNeedsInput
          && (rec.report.Some? ==> rec.report.value.status == StNeedsInput))
    && (rec.state == RoleFailed ==>
          && |rec.attempts| == 1
          && ((rec.attempts[0].state == Finished && rec.attempts[0].outcome in {OutBlocked, OutFailed})
              || (rec.attempts[0].state == Crashed && rec.attempts[0].outcome == OutCrashed)))
    && (rec.state == RoleReconcile ==> |rec.attempts| == 1 && rec.attempts[0].state == AttemptReconcile)
  }

  // ---------------------------------------------------------------- candidate

  function AddNew(questions: seq<string>, more: seq<string>): seq<string>
    decreases |more|
  {
    if more == [] then questions
    else AddNew(if more[0] in questions then questions else questions + [more[0]], more[1..])
  }

  function Prefixed(prefix: string, lines: seq<string>): seq<string> {
    seq(|lines|, i requires 0 <= i < |lines| => prefix + lines[i])
  }

  function RoleLabel(role: Role): string {
    match role
    case PO => "PO"
    case BA => "BA"
    case QA => "QA"
    case DEV => "DEV"
  }

  function ArtifactQuestions(a: Artifact): seq<string> {
    match a
    case ArtPo(po) => po.openQuestions
    case ArtBa(ba) => ba.openQuestions
    case ArtQa(qa) => qa.openQuestions
    case ArtDev(dev) => dev.openQuestions
  }

  function PlanQuestions(p: Plan, role: Role): seq<string> {
    match role
    case PO => p.def.roles.po.openQuestions
    case BA => p.def.roles.ba.openQuestions
    case QA => p.def.roles.qa.openQuestions
    case DEV => p.def.roles.dev.openQuestions
  }

  function RoleQuestions(questions: seq<string>, p: Plan, role: Role, report: Report): seq<string> {
    AddNew(AddNew(AddNew(questions, PlanQuestions(p, role)), ArtifactQuestions(report.artifact)),
           Prefixed(RoleLabel(role) + " challenge: ", report.challenges))
  }

  function CandidateQuestions(p: Plan, o: Outputs): seq<string> {
    var q := AddNew([], p.def.unresolvedQuestions);
    RoleQuestions(RoleQuestions(RoleQuestions(RoleQuestions(q, p, PO, o.po), p, BA, o.ba), p, QA, o.qa), p, DEV, o.dev)
  }

  function CandidateChallenges(o: Outputs): seq<string> {
    Prefixed("PO: ", o.po.challenges) + Prefixed("BA: ", o.ba.challenges)
    + Prefixed("QA: ", o.qa.challenges) + Prefixed("DEV: ", o.dev.challenges)
  }

  /** All four reports, each carrying the artifact of its role. */
  function ReportsOf(t: RoleTable): Result<Outputs> {
    if t.po.report.None? || t.ba.report.None? || t.qa.report.None? || t.dev.report.None?
    then Err(PlanningCandidateRoleBindingMismatch) else
    var o := Outputs(t.po.report.value, t.ba.report.value, t.qa.report.value, t.dev.report.value);
    if !o.po.artifact.ArtPo? || !o.ba.artifact.ArtBa? || !o.qa.artifact.ArtQa? || !o.dev.artifact.ArtDev?
    then Err(PlanningCandidateRoleBindingMismatch) else
    Ok(o)
  }

  function PatchFor(p: Plan, o: Outputs): CandidatePatch
    requires o.po.artifact.ArtPo? && o.ba.artifact.ArtBa? && o.qa.artifact.ArtQa? && o.dev.artifact.ArtDev?
  {
    CandidatePatch(o.po.artifact.po, o.ba.artifact.ba, o.dev.artifact.dev, o.qa.artifact.qa, CandidateQuestions(p, o))
  }

  function PlanPatch(c: CandidatePatch): Phases.Patch {
    Phases.Patch(None, None, None, Some(c.questions), None, None, None, Some(c.po), Some(c.ba), Some(c.dev), Some(c.qa))
  }


  /** The candidate the four accepted reports determine. */
  function BuildCandidate(r: Run, at: int): Result<Candidate> {
    var outputs :- ReportsOf(r.roles);
    var patch := PatchFor(r.sourcePlan, outputs);
    var preview := Phases.UpdateDefinition(r.sourcePlan, PlanPatch(patch), at);
    if preview.Err? then Err(PlanningCandidateInvalid) else
    if preview.value.revision != r.planRevision + 1 || preview.value.def == r.planDigest
    then Err(PlanningCandidateUnchanged) else
    Ok(Candidate(patch,
                 CandidateDigest(r.id, r.planId, r.planRevision, r.planDigest, patch, outputs),
                 preview.value.def, Complete(preview.value), CandidateChallenges(outputs), outputs, at))
  }

  // A stored candidate is recomputed from the reports and must be exactly that.
  predicate ValidCandidate(c: Candidate, r: Run) {
    BuildCandidate(r, c.compiledAt) == Ok(c)
  }

  // ---------------------------------------------------------------- outbox, blocker, receipts

  predicate ValidOutbox(o: ApplyOutbox, candidate: Option<Candidate>) {
    && (o.appliedPlanRevision.Some? ==> o.appliedPlanRevision.value >= 1)
    && (o.state != Held ==> candidate.Some? && o.candidateDigest == Some(candidate.value.digest))
    && (o.state == Held ==>
          && o.candidateDigest.None? && o.claimId == "" && o.claimedAt.None? && o.appliedPlanRevision.None?
          && o.appliedPlanDigest.None? && o.appliedAt.None? && !o.receiptAbsent && o.error == "")
    && (o.state != Held ==> o.claimId != "" && o.claimedAt.Some?)
    && (o.state == ApplyClaimed ==>
          o.appliedPlanRevision.None? && o.appliedPlanDigest.None? && o.appliedAt.None? && !o.receiptAbsent && o.error == "")
    && (o.state == ApplyReconcile ==> !o.receiptAbsent && o.error != "")
    && (o.state == Abandoned ==>
          o.appliedPlanRevision.None? && o.appliedPlanDigest.None? && o.appliedAt.None? && o.receiptAbsent && o.error != "")
    && (o.state == ApplyApplied ==>
          o.appliedPlanRevision.Some? && o.appliedPlanDigest.Some? && o.appliedAt.Some? && !o.receiptAbsent && o.error == "")
  }

  predicate ReportComplete(rec: RoleRecord) {
    rec.report.Some? && rec.report.value.status == StComplete
  }

  predicate AllReportsComplete(t: RoleTable) {
    ReportComplete(t.po) && ReportComplete(t.ba) && ReportComplete(t.qa) && ReportComplete(t.dev)
  }

  predicate ValidSynthesisBlocker(r: Run) {
    r.synthesisBlocker.Some? ==>
      && r.synthesisBlocker.value.code in {PlanningCandidateInvalid, PlanningCandidateUnchanged, PlanningCandidateTooLarge}
      && r.synthesisBlocker.value.reason != ""
      && r.candidate.None? && AllReportsComplete(r.roles)
      && r.phase in {PhaseChallenge, PhaseSynthesis, PhaseClosed} && r.condition != Active
  }

  function CountKind(receipts: seq<Receipt>, kind: ContinueKind): nat {
    if receipts == [] then 0
    else CountKind(receipts[..|receipts| - 1], kind) + if receipts[|receipts| - 1].kind == kind then 1 else 0
  }

  predicate SameIntent(a: Receipt, b: Receipt) {
    a.kind == b.kind && a.role == b.role && a.attemptId == b.attemptId && a.claimId == b.claimId
  }

  predicate ValidReceipt(x: Receipt, revision: int) {
    && x.operationId != "" && x.requestedStoreRevision >= 0 && 1 <= x.requestedRunRevision < revision
    && (x.kind == ResourceRetry ==> x.attemptId == "" && x.claimId == "" && x.recoveryOutcome == NoRecovery)
    && (x.kind == CleanupOnly ==> x.attemptId != "" && x.claimId != "" && x.recoveryOutcome in {NoRecovery, ExactWorker})
  }

  predicate ValidReceipts(receipts: seq<Receipt>, revision: int) {
    && |receipts| <= MAX_RECEIPTS
    && CountKind(receipts, ResourceRetry) <= MAX_RECEIPTS_PER_KIND
    && CountKind(receipts, CleanupOnly) <= MAX_RECEIPTS_PER_KIND
    && (forall x :: x in receipts ==> ValidReceipt(x, revision))
    && (forall i, j :: 0 <= i < j < |receipts| ==>
          && receipts[i].authorizedAt <= receipts[j].authorizedAt
          && receipts[i].operationId != receipts[j].operationId
          && !(receipts[i].kind == CleanupOnly && SameIntent(receipts[i], receipts[j])))
  }

  // ---------------------------------------------------------------- the run

  /** The role's report is complete and its worker was cleaned up. */
  predicate CompletedAndCleaned(rec: RoleRecord) {
    && rec.state == Completed && ReportComplete(rec)
    && |rec.attempts| > 0 && rec.attempts[|rec.attempts| - 1].cleanup.Some?
    && rec.attempts[|rec.attempts| - 1].cleanup.value.state == CleanupComplete
  }

  predicate PhaseLifecycle(r: Run) {
    var poReady, baReady := CompletedAndCleaned(r.roles.po), CompletedAndCleaned(r.roles.ba);
    var challengeReady := CompletedAndCleaned(r.roles.qa) && CompletedAndCleaned(r.roles.dev);
    && (r.phase == PhasePo ==> r.roles.ba.state == Pending && r.roles.qa.state == Pending && r.roles.dev.state == Pending)
    && (r.phase == PhaseBa ==> poReady && r.roles.qa.state == Pending && r.roles.dev.state == Pending)
    && (r.phase == PhaseChallenge ==> poReady && baReady)
    && (r.phase in {PhaseSynthesis, PhaseReview, PhaseApplied} ==> poReady && baReady && challengeReady)
    && (r.candidate.Some? ==> r.phase in {PhaseReview, PhaseApplied, PhaseClosed})
    && (r.phase in {PhaseReview, PhaseApplied} ==> r.candidate.Some?)
    && (r.applyOutbox.state != Held ==> r.phase in {PhaseReview, PhaseApplied, PhaseClosed})
    && (r.phase == PhaseClosed ==> r.applyOutbox.state in {Held, Abandoned})
    && (r.phase == PhaseApplied ==> r.applyOutbox.state == ApplyApplied)
    && (r.phase == PhaseClosed ==> r.condition in {RunCanceled, OffCourse, RunFailed, Reconciling})
    && (r.condition == RunCanceled ==> r.phase == PhaseClosed)
  }

  predicate SomeRole(t: RoleTable, s: RoleState) {
    t.po.state == s || t.ba.state == s || t.qa.state == s || t.dev.state == s
  }

  predicate ConditionLifecycle(r: Run) {
    && (r.condition == Active <==> r.blocker == "")
    && (r.condition == AwaitingInput ==> SomeRole(r.roles, RoleNeedsInput) || r.synthesisBlocker.Some?)
    && (r.condition == RunFailed ==> SomeRole(r.roles, RoleFailed))
    && (r.condition == Reconciling ==> r.applyOutbox.state == ApplyReconcile || SomeRole(r.roles, RoleReconcile))
  }

  predicate ValidSourcePlan(p: Plan) {
    && Phases.ValidPlan(p) && p.phase == Planning
    && p.def.classification.depth == "standard"
    && p.def.classification.intent in {"change", "build"}
    && p.def.classification.risk == "local_reversible"
    && p.def.classification.mutationSurfaces == ["workspace"]
    && p.def.authority == Authority(true, false, false, false, false, false, false, false)
    && p.def.baseline.head != "" && p.def.baseline.workingTree != Missing && p.def.baseline.instructions != Missing
    && p.capturedAt.Some?
  }

  predicate ValidRoles(t: RoleTable, b: RunBinding) {
    ValidRole(t.po, PO, b) && ValidRole(t.ba, BA, b) && ValidRole(t.qa, QA, b) && ValidRole(t.dev, DEV, b)
  }

  predicate ValidRun(r: Run) {
    && r.revision >= 1 && r.createdAt <= r.updatedAt
    && ValidSourcePlan(r.sourcePlan)
    && r.sourcePlan.def.id == r.planId && r.sourcePlan.revision == r.planRevision && r.sourcePlan.def == r.planDigest
    && ValidRoles(r.roles, BindingOf(r))
    && (r.candidate.Some? ==> ValidCandidate(r.candidate.value, r))
    && ValidOutbox(r.applyOutbox, r.candidate)
    && ValidSynthesisBlocker(r)
    && ValidReceipts(r.receipts, r.revision)
    && PhaseLifecycle(r)
    && ConditionLifecycle(r)
  }

  /** A new run on a plan; fails when the plan may not be planned this way. */
  function CreateRun(id: string, plan: Plan, at: int): Result<Run> {
    if id == "" then Err(PlanningIdInvalid) else
    var r := Run(id, 1, PhasePo, Active, plan.def.id, plan.revision, plan.def, plan,
                 RoleTable(EMPTY_ROLE, EMPTY_ROLE, EMPTY_ROLE, EMPTY_ROLE), None, EmptyOutbox(at), None, [], "", at, at);
    if ValidRun(r) then Ok(r) else Err(PlanningSourcePlanInvalid)
  }
}
