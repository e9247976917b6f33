/** How large the JSON text of a Planning Run is. */
module PlanningSizes {
  import opened Errors
  import opened Wrappers
  import opened DeliveryPlans
  import opened JsonBytes
  import opened PlanningRuns

  const MAX_PLAN_BYTES := 16 * 1024
  const MAX_REPORT_BYTES := 16 * 1024
  const MAX_RUN_BYTES := 256 * 1024

  // ---------------------------------------------------------------- source plans and artifacts

  // version, id, revision, phase, title, request, workspace, baseline, classification, roles, unresolvedQuestions,
  // authority, approval, gates, blocker, createdAt, updatedAt
  const PLAN_KEYS := Keys(17, 7 + 2 + 8 + 5 + 5 + 7 + 9 + 8 + 14 + 5 + 19 + 9 + 8 + 5 + 7 + 9 + 9)
  // head, workingTreeDigest, instructionsDigest, capturedAt
  const BASELINE_KEYS := Keys(4, 4 + 17 + 18 + 10)
  // intent, depth, risk, dataClasses, mutationSurfaces
  const CLASSIFICATION_KEYS := Keys(5, 6 + 5 + 4 + 11 + 16)
  // workspaceWrite, commit, push, deploy, network, serviceControl, destructive, externalMessages
  const AUTHORITY_KEYS := Keys(8, 14 + 6 + 4 + 6 + 7 + 14 + 11 + 16)
  // digest, approvedAt, planRevision
  const APPROVAL_KEYS := Keys(3, 6 + 10 + 12)
  // implementationCaptured, qaPassed, releaseVerified
  const GATES_KEYS := Keys(3, 22 + 8 + 15)
  // po, ba, dev, qa
  const ROLES_KEYS := Keys(4, 2 + 2 + 3 + 2)
  // user, problem, outcome, value, nonGoals, assumptions, openQuestions
  const PO_KEYS := Keys(7, 4 + 7 + 7 + 5 + 8 + 11 + 13)
  // requirements, dependencies, edgeCases, constraints, openQuestions
  const BA_KEYS := Keys(5, 12 + 12 + 9 + 11 + 13)
  // id, text
  const REQUIREMENT_KEYS := Keys(2, 2 + 4)
  // architecture, steps, risks, rollback, openQuestions
  const DEV_KEYS := Keys(5, 12 + 5 + 5 + 8 + 13)
  // id, title, outcome, requirementIds, scopePaths, checks
  const STEP_KEYS := Keys(6, 2 + 5 + 7 + 14 + 10 + 6)
  // acceptanceCriteria, testStrategy, regressionChecks, releaseRequired, releaseChecks, openQuestions
  const QA_KEYS := Keys(6, 18 + 12 + 16 + 15 + 13 + 13)
  // id, text, requirementIds
  const CRITERION_KEYS := Keys(3, 2 + 4 + 14)

  function PhaseNameOf(p: Phase): string {
    match p
    case Draft => "draft"
    case Planning => "planning"
    case NeedsDecision => "needs_decision"
    case ReadyForApproval => "ready_for_approval"
    case Approved => "approved"
    case Executing => "executing"
    case Verifying => "verifying"
    case ReadyToRelease => "ready_to_release"
    case Blocked => "blocked"
    case Done => "done"
    case Canceled => "canceled"
  }

  function TreeBytes(t: TreeDigest): nat {
    if t == Missing then EMPTY_TEXT else DIGEST
  }

  function BaselineBytes(depth: nat, b: Baseline, capturedAt: Option<int>): nat {
    Frame(depth, BASELINE_KEYS) + Quoted(b.head) + TreeBytes(b.workingTree) + TreeBytes(b.instructions)
    + if capturedAt.Some? then TimeBytes(capturedAt.value) else EMPTY_TEXT
  }

  function ClassificationBytes(depth: nat, c: Classification): nat {
    Frame(depth, CLASSIFICATION_KEYS) + Quoted(c.intent) + Quoted(c.depth) + Quoted(c.risk)
    + TextsBytes(depth + 1, c.dataClasses) + TextsBytes(depth + 1, c.mutationSurfaces)
  }

  function AuthorityBytes(depth: nat, a: Authority): nat {
    Frame(depth, AUTHORITY_KEYS) + BoolBytes(a.workspaceWrite) + BoolBytes(a.commit) + BoolBytes(a.push) + BoolBytes(a.deploy)
    + BoolBytes(a.network) + BoolBytes(a.serviceControl) + BoolBytes(a.destructive) + BoolBytes(a.externalMessages)
  }

  function ApprovalBytes(depth: nat, a: Approval): nat {
    Frame(depth, APPROVAL_KEYS) + (if a.digest.Some? then DIGEST else EMPTY_TEXT) + OptionalTime(a.approvedAt)
    + if a.planRevision.Some? then IntBytes(a.planRevision.value) else NULL
  }

  function GatesBytes(depth: nat, g: Gates): nat {
    Frame(depth, GATES_KEYS) + BoolBytes(g.implementationCaptured) + BoolBytes(g.qaPassed) + BoolBytes(g.releaseVerified)
  }

  function PoBytes(depth: nat, a: PoArtifact): nat {
    Frame(depth, PO_KEYS) + Quoted(a.user) + Quoted(a.problem) + Quoted(a.outcome) + Quoted(a.value)
    + TextsBytes(depth + 1, a.nonGoals) + TextsBytes(depth + 1, a.assumptions) + TextsBytes(depth + 1, a.openQuestions)
  }

  function RequirementsSum(depth: nat, rs: seq<Requirement>): nat {
    if rs == [] then 0
    else
      var last := rs[|rs| - 1];
      RequirementsSum(depth, rs[..|rs| - 1]) + Frame(depth, REQUIREMENT_KEYS) + Quoted(last.id) + Quoted(last.text)
  }

  function BaBytes(depth: nat, a: BaArtifact): nat {
    Frame(depth, BA_KEYS) + ListFrame(depth + 1, |a.requirements|) + RequirementsSum(depth + 2, a.requirements)
    + TextsBytes(depth + 1, a.dependencies) + TextsBytes(depth + 1, a.edgeCases) + TextsBytes(depth + 1, a.constraints)
    + TextsBytes(depth + 1, a.openQuestions)
  }

  function StepsSum(depth: nat, ss: seq<DevStep>): nat {
    if ss == [] then 0
    else
      var last := ss[|ss| - 1];
      StepsSum(depth, ss[..|ss| - 1]) + Frame(depth, STEP_KEYS) + Quoted(last.id) + Quoted(last.title) + Quoted(last.outcome)
      + TextsBytes(depth + 1, last.requirementIds) + TextsBytes(depth + 1, last.scopePaths) + TextsBytes(depth + 1, last.checks)
  }

  function DevBytes(depth: nat, a: DevArtifact): nat {
    Frame(depth, DEV_KEYS) + Quoted(a.architecture) + ListFrame(depth + 1, |a.steps|) + StepsSum(depth + 2, a.steps)
    + TextsBytes(depth + 1, a.risks) + Quoted(a.rollback) + TextsBytes(depth + 1, a.openQuestions)
  }

  function CriteriaSum(depth: nat, cs: seq<Criterion>): nat {
    if cs == [] then 0
    else
      var last := cs[|cs| - 1];
      CriteriaSum(depth, cs[..|cs| - 1]) + Frame(depth, CRITERION_KEYS) + Quoted(last.id) + Quoted(last.text)
      + TextsBytes(depth + 1, last.requirementIds)
  }

  function QaBytes(depth: nat, a: QaArtifact): nat {
    Frame(depth, QA_KEYS) + ListFrame(depth + 1, |a.acceptanceCriteria|) + CriteriaSum(depth + 2, a.acceptanceCriteria)
    + Quoted(a.testStrategy) + TextsBytes(depth + 1, a.regressionChecks) + BoolBytes(a.releaseRequired)
    + TextsBytes(depth + 1, a.releaseChecks) + TextsBytes(depth + 1, a.openQuestions)
  }

  function RolesBytes(depth: nat, po: PoArtifact, ba: BaArtifact, dev: DevArtifact, qa: QaArtifact): nat {
    Frame(depth, ROLES_KEYS) + PoBytes(depth + 1, po) + BaBytes(depth + 1, ba) + DevBytes(depth + 1, dev) + QaBytes(depth + 1, qa)
  }

  function PlanBytes(depth: nat, p: Plan): nat {
    var d := p.def;
    Frame(depth, PLAN_KEYS) + Digits(1) + Quoted(d.id) + IntBytes(p.revision) + Name(PhaseNameOf(p.phase)) + Quoted(d.title)
    + Quoted(d.request) + Quoted(d.workspace) + BaselineBytes(depth + 1, d.baseline, p.capturedAt)
    + ClassificationBytes(depth + 1, d.classification)
    + RolesBytes(depth + 1, d.roles.po, d.roles.ba, d.roles.dev, d.roles.qa)
    + TextsBytes(depth + 1, d.unresolvedQuestions) + AuthorityBytes(depth + 1, d.authority)
    + ApprovalBytes(depth + 1, p.approval) + GatesBytes(depth + 1, p.gates) + Quoted(p.blocker)
    + TimeBytes(p.createdAt) + TimeBytes(p.updatedAt)
  }

  // ---------------------------------------------------------------- reports

  // version, runId, planId, planRevision, role, attemptId, inputDigest, status, artifact, challenges, evidence
  const REPORT_KEYS := Keys(11, 7 + 5 + 6 + 12 + 4 + 9 + 11 + 6 + 8 + 10 + 8)
  // summary, trusted
  const EVIDENCE_KEYS := Keys(2, 7 + 7)

  function RoleChars(role: Role): nat {
    if role == DEV then 3 else 2
  }

  function ArtifactBytes(depth: nat, a: Artifact): nat {
    match a
    case ArtPo(po) => PoBytes(depth, po)
    case ArtBa(ba) => BaBytes(depth, ba)
    case ArtQa(qa) => QaBytes(depth, qa)
    case ArtDev(dev) => DevBytes(depth, dev)
  }

  /** Evidence is never trusted. */
  function EvidenceSum(depth: nat, evidence: seq<string>): nat {
    if evidence == [] then 0
    else EvidenceSum(depth, evidence[..|evidence| - 1]) + Frame(depth, EVIDENCE_KEYS) + Quoted(evidence[|evidence| - 1]) + BoolBytes(false)
  }

  function ReportBytes(depth: nat, report: Report): nat {
    Frame(depth, REPORT_KEYS) + Digits(1) + Quoted(report.runId) + Quoted(report.planId) + IntBytes(report.planRevision)
    + (2 + RoleChars(report.role)) + Quoted(report.attemptId) + DIGEST + Name(StatusName(report.status))
    + ArtifactBytes(depth + 1, report.artifact) + TextsBytes(depth + 1, report.challenges)
    + ListFrame(depth + 1, |report.evidence|) + EvidenceSum(depth + 2, report.evidence)
  }

  // ---------------------------------------------------------------- attempts

  // action, state, claimId, operatorConfirmed, claimedAt, sentAt, completedAt, observation
  const STOP_KEYS := Keys(8, 6 + 5 + 7 + 17 + 9 + 6 + 11 + 11)
  // status, sessionCreatedAt, paneId, tmuxPaneId, panePid, paneTty, boundAt, observedAt
  const OBSERVED_KEYS := Keys(8, 6 + 16 + 6 + 10 + 7 + 7 + 7 + 10)
  // leaseId, session, contextDigest, scopeUnit, scopeDigest, launchDigest, bindDeadlineAt, claimedAt, state,
  // observed, cleanup, error
  const LEASE_KEYS := Keys(12, 7 + 7 + 13 + 9 + 11 + 12 + 14 + 9 + 5 + 8 + 7 + 5)
  // outcome, claimId, observedAt
  const RECOVERY_KEYS := Keys(3, 7 + 7 + 10)
  // state, claimId, claimedAt, sentAt, completedAt, error, recoveryOutcome, recoveredAt, recoveryCount,
  // recoveryHistory
  const CLEANUP_KEYS := Keys(10, 5 + 7 + 9 + 6 + 11 + 5 + 15 + 11 + 13 + 15)
  // id, kind, state, inputDigest, spawnLease, session, sessionCreatedAt, paneId, tmuxPaneId, panePid, paneTty,
  // codexPid, rolloutId, sourceId, commandDigest, rolloutPath, rolloutStartOffset, scopeUnit, scopeDigest,
  // confirmationMarker, promptDigest, claimedAt, dispatchClaimedAt, submittedAt, finishedAt, outcome, summary, error,
  // cleanup
  const ATTEMPT_KEYS := Keys(29, 2 + 4 + 5 + 11 + 10 + 7 + 16 + 6 + 10 + 7 + 7 + 8 + 9 + 8 + 13 + 11 + 18 + 9 + 11 +
    18 + 12 + 9 + 17 + 11 + 10 + 7 + 7 + 5 + 7)
  // state, inputDigest, attempts, report, outputDigest
  const ROLE_KEYS := Keys(5, 5 + 11 + 8 + 6 + 12)

  function StopName(s: StopState): string {
    match s
    case StopClaimed => "claimed"
    case StopSent => "sent"
    case StopComplete => "complete"
  }

  /** Without an observation a lease says `none`, and a request to stop the scope nothing. */
  function ObservationName(o: Observation): string {
    match o
    case NothingSeen => "none"
    case ExactPane => "exact_pane"
    case PresentUnattestable => "present_unattestable"
    case ScopeAndPaneAbsent => "scope_and_pane_absent"
  }

  function LeaseName(s: LeaseState): string {
    match s
    case LeaseClaimed => "claimed"
    case LeaseBound => "bound"
    case LeaseReconcile => "reconcile_required"
    case LeaseAdopted => "adopted"
    case LeaseClosed => "closed"
  }

  function CleanupName(s: CleanupState): string {
    match s
    case CleanupPending => "pending"
    case CleanupClaimed => "claimed"
    case CleanupSent => "sent"
    case CleanupComplete => "complete"
    case CleanupReconcile => "reconcile_required"
  }

  function RecoveryName(o: RecoveryOutcome): string {
    match o
    case NoRecovery => ""
    case WorkerAbsent => "worker_absent"
    case ExactWorker => "exact_worker"
  }

  function OutcomeName(o: Outcome): string {
    match o
    case NoOutcome => ""
    case OutComplete => "complete"
    case OutNeedsInput => "needs_input"
    case OutBlocked => "blocked"
    case OutFailed => "failed"
    case OutCrashed => "crashed"
  }

  function AttemptName(s: AttemptState): string {
    match s
    case Spawning => "spawn_claimed"
    case Dispatching => "dispatch_claimed"
    case Submitted => "dispatched"
    case Finished => "finished"
    case Crashed => "crashed"
    case AttemptReconcile => "reconcile_required"
  }

  function RoleStateName(s: RoleState): string {
    match s
    case Pending => "pending"
    case SpawnClaimed => "spawn_claimed"
    case DispatchClaimed => "dispatch_claimed"
    case Dispatched => "dispatched"
    case Completed => "completed"
    case RoleNeedsInput => "needs_input"
    case RoleFailed => "failed"
    case RoleReconcile => "reconcile_required"
  }

  /** Session, lease id and scope unit hold 24 digits of a digest and, but for the scope unit, the role. */
  function SessionBytes(role: Role): nat {
    Name("codex-planning-") + 24 + 1 + RoleChars(role)
  }

  function LeaseIdBytes(role: Role): nat {
    Name("planning-spawn-lease-") + 24 + 1 + RoleChars(role)
  }

  function ScopeUnitBytes(): nat {
    Name("panefleet-planning-") + 24 + |".scope"|
  }

  function StopBytes(s: StopRequest): nat {
    Frame(6, STOP_KEYS) + Name("stop_exact_scope") + Name(StopName(s.state)) + Quoted(s.claimId) + BoolBytes(true)
    + TimeBytes(s.claimedAt) + OptionalTime(s.sentAt) + OptionalTime(s.completedAt)
    + if s.observation == NothingSeen then EMPTY_TEXT else Name(ObservationName(s.observation))
  }

  /** The values of the pane fields. */
  function PaneBytes(p: Pane): nat {
    TimeBytes(p.sessionCreatedAt) + Quoted(p.paneId) + Quoted(p.tmuxPaneId) + IntBytes(p.panePid) + Quoted(p.paneTty)
  }

  const NO_PANE := NULL + EMPTY_TEXT + EMPTY_TEXT + NULL + EMPTY_TEXT

  function ObservedBytes(o: Observed): nat {
    Frame(6, OBSERVED_KEYS) + Name(ObservationName(o.status))
    + (if o.bound.Some? then PaneBytes(o.bound.value.pane) + TimeBytes(o.bound.value.boundAt) else NO_PANE + NULL)
    + OptionalTime(o.observedAt)
  }

  function LeaseBytes(role: Role, l: SpawnLease): nat {
    Frame(5, LEASE_KEYS) + LeaseIdBytes(role) + SessionBytes(role) + DIGEST + ScopeUnitBytes() + DIGEST + DIGEST
    + TimeBytes(l.binding.bindDeadlineAt) + TimeBytes(l.claimedAt) + Name(LeaseName(l.state)) + ObservedBytes(l.observed)
    + (if l.stop.Some? then StopBytes(l.stop.value) else NULL) + Quoted(l.error)
  }

  function RecoveryBytes(x: Recovery): nat {
    Frame(7, RECOVERY_KEYS) + Name(RecoveryName(x.outcome)) + Quoted(x.claimId) + TimeBytes(x.observedAt)
  }

  function HistorySum(h: seq<Recovery>): nat {
    if h == [] then 0 else HistorySum(h[..|h| - 1]) + RecoveryBytes(h[|h| - 1])
  }

  function CleanupBytes(c: Cleanup): nat {
    Frame(5, CLEANUP_KEYS) + Name(CleanupName(c.state)) + Quoted(c.claimId) + OptionalTime(c.claimedAt) + OptionalTime(c.sentAt)
    + OptionalTime(c.completedAt) + Quoted(c.error) + Name(RecoveryName(c.recoveryOutcome)) + OptionalTime(c.recoveredAt)
    + IntBytes(c.recoveryCount) + ListFrame(6, |c.history|) + HistorySum(c.history)
  }

  /** The values of the fields that adopting a worker fills in. */
  function DispatchBytes(role: Role, attemptId: string, d: Dispatch): nat {
    var w := d.worker;
    SessionBytes(role) + PaneBytes(w.pane) + IntBytes(w.codexPid) + Quoted(w.rolloutId) + Quoted(w.sourceId) + DIGEST
    + Quoted(d.rolloutPath) + IntBytes(d.rolloutStartOffset) + ScopeUnitBytes() + DIGEST
    + (Name("[PaneFleet Planning Dispatch ]") + TextBytes(attemptId)) + DIGEST
  }

  /** Empty texts but for the pane, the worker's process id and the offset, which are null. */
  const NO_DISPATCH := EMPTY_TEXT + NO_PANE + NULL + EMPTY_TEXT + EMPTY_TEXT + EMPTY_TEXT + EMPTY_TEXT + NULL + EMPTY_TEXT + EMPTY_TEXT
                       + EMPTY_TEXT + EMPTY_TEXT

  function AttemptBytes(a: Attempt): nat {
    Frame(4, ATTEMPT_KEYS) + Quoted(a.id) + (2 + RoleChars(a.kind)) + Name(AttemptName(a.state)) + DIGEST + LeaseBytes(a.kind, a.lease)
    + (if a.dispatch.Some? then DispatchBytes(a.kind, a.id, a.dispatch.value) else NO_DISPATCH)
    + TimeBytes(a.claimedAt) + OptionalTime(a.dispatchClaimedAt) + OptionalTime(a.submittedAt) + OptionalTime(a.finishedAt)
    + Name(OutcomeName(a.outcome)) + Quoted(a.summary) + Quoted(a.error)
    + if a.cleanup.Some? then CleanupBytes(a.cleanup.value) else NULL
  }

  function AttemptsSum(attempts: seq<Attempt>): nat {
    if attempts == [] then 0 else AttemptsSum(attempts[..|attempts| - 1]) + AttemptBytes(attempts[|attempts| - 1])
  }

  function RoleBytes(rec: RoleRecord): nat {
    Frame(2, ROLE_KEYS) + Name(RoleStateName(rec.state)) + (if rec.inputDigest.Some? then DIGEST else EMPTY_TEXT)
    + ListFrame(3, |rec.attempts|) + AttemptsSum(rec.attempts)
    + (if rec.report.Some? then ReportBytes(3, rec.report.value) else NULL)
    + if rec.outputDigest.Some? then DIGEST else EMPTY_TEXT
  }

  function TableBytes(t: RoleTable): nat {
    Frame(1, ROLES_KEYS) + RoleBytes(t.po) + RoleBytes(t.ba) + RoleBytes(t.qa) + RoleBytes(t.dev)
  }

  // ---------------------------------------------------------------- candidate, outbox, receipts

  // definitionPatch, digest, previewPlanDigest, readiness, challenges, roleOutputDigests, compiledAt
  const CANDIDATE_KEYS := Keys(7, 15 + 6 + 17 + 9 + 10 + 17 + 10)
  // roles, unresolvedQuestions
  const PATCH_KEYS := Keys(2, 5 + 19)
  // state, candidateDigest, claimId, claimedAt, appliedPlanRevision, appliedPlanDigest, appliedAt, observation,
  // error, updatedAt
  const OUTBOX_KEYS := Keys(10, 5 + 15 + 7 + 9 + 19 + 17 + 9 + 11 + 5 + 9)
  // code, reason, recordedAt
  const BLOCKER_KEYS := Keys(3, 4 + 6 + 10)
  // operationId, kind, role, attemptId, claimId, cleanupRecoveryOutcome, requestedStoreRevision,
  // requestedRunRevision, authorizedAt
  const RECEIPT_KEYS := Keys(9, 11 + 4 + 4 + 9 + 7 + 22 + 22 + 20 + 12)

  /** The bytes of the readiness findings for a definition, which are not part of a candidate here. They do
      not depend on what names the plan. */
  datatype Measures = Measures(readiness: Definition -> nat)

  function CandidateBytes(m: Measures, c: Candidate): nat {
    Frame(1, CANDIDATE_KEYS)
    + (Frame(2, PATCH_KEYS) + RolesBytes(3, c.patch.po, c.patch.ba, c.patch.dev, c.patch.qa) + TextsBytes(3, c.patch.questions))
    + DIGEST + DIGEST + m.readiness(c.previewPlanDigest.(id := "", title := "", request := "")) + TextsBytes(2, c.challenges) + (Frame(2, ROLES_KEYS) + 4 * DIGEST)
    + TimeBytes(c.compiledAt)
  }

  function ApplyName(s: ApplyState): string {
    match s
    case Held => "held"
    case ApplyClaimed => "claimed"
    case ApplyReconcile => "reconcile_required"
    case Abandoned => "abandoned"
    case ApplyApplied => "applied"
  }

  function OutboxBytes(o: ApplyOutbox): nat {
    Frame(1, OUTBOX_KEYS) + Name(ApplyName(o.state)) + (if o.candidateDigest.Some? then DIGEST else EMPTY_TEXT) + Quoted(o.claimId)
    + OptionalTime(o.claimedAt) + (if o.appliedPlanRevision.Some? then IntBytes(o.appliedPlanRevision.value) else NULL)
    + (if o.appliedPlanDigest.Some? then DIGEST else EMPTY_TEXT) + OptionalTime(o.appliedAt)
    + (if o.receiptAbsent then Name("plan_receipt_absent") else EMPTY_TEXT) + Quoted(o.error) + TimeBytes(o.updatedAt)
  }

  /** The codes with which a synthesis is blocked. */
  function BlockerName(code: Error): string {
    if code == PlanningCandidateTooLarge then "delivery_planning_run_candidate_too_large"
    else if code == PlanningCandidateUnchanged then "delivery_planning_run_candidate_unchanged"
    else "delivery_planning_run_candidate_invalid"
  }

  function BlockerBytes(b: SynthesisBlocker): nat {
    Frame(1, BLOCKER_KEYS) + Name(BlockerName(b.code)) + Quoted(b.reason) + TimeBytes(b.recordedAt)
  }

  function KindName(k: ContinueKind): string {
    if k == ResourceRetry then "resource_retry" else "cleanup_only"
  }

  function ReceiptBytes(x: Receipt): nat {
    Frame(2, RECEIPT_KEYS) + Quoted(x.operationId) + Name(KindName(x.kind)) + (2 + RoleChars(x.role)) + Quoted(x.attemptId)
    + Quoted(x.claimId) + Name(RecoveryName(x.recoveryOutcome)) + IntBytes(x.requestedStoreRevision) + IntBytes(x.requestedRunRevision)
    + TimeBytes(x.authorizedAt)
  }

  function ReceiptsSum(receipts: seq<Receipt>): nat {
    if receipts == [] then 0 else ReceiptsSum(receipts[..|receipts| - 1]) + ReceiptBytes(receipts[|receipts| - 1])
  }

  // ---------------------------------------------------------------- the run

  // version, id, revision, phase, condition, planId, planRevision, planDigest, workspace, baseline, inputDigest,
  // sourcePlan, roles, candidate, applyOutbox, synthesisBlocker, continueReceipts, blocker, createdAt, updatedAt
  const RUN_KEYS := Keys(20, 7 + 2 + 8 + 5 + 9 + 6 + 12 + 10 + 9 + 8 + 11 + 10 + 5 + 9 + 11 + 16 + 16 + 7 + 9 + 9)

  function PhaseName(p: RunPhase): string {
    match p
    case PhasePo => "po"
    case PhaseBa => "ba"
    case PhaseChallenge => "challenge"
    case PhaseSynthesis => "synthesis"
    case PhaseReview => "review"
    case PhaseApplied => "applied"
    case PhaseClosed => "closed"
  }

  function ConditionName(c: Condition): string {
    match c
    case Active => "active"
    case ResourceWait => "resource_wait"
    case AwaitingInput => "needs_input"
    case Reconciling => "reconcile_required"
    case OffCourse => "off_course"
    case RunFailed => "failed"
    case RunCanceled => "canceled"
  }

  /** What never changes: identity, source plan, and what is copied from it. */
  function FixedBytes(r: Run): nat {
    Frame(0, RUN_KEYS) + 1 + Digits(1) + Quoted(r.id) + Quoted(r.planId) + IntBytes(r.planRevision) + DIGEST + Quoted(r.sourcePlan.def.workspace)
    + BaselineBytes(1, r.sourcePlan.def.baseline, r.sourcePlan.capturedAt) + DIGEST + PlanBytes(1, r.sourcePlan) + TimeBytes(r.createdAt)
  }

  /** The bytes of the stored JSON text of a run, with its last newline. */
  function RunBytes(m: Measures, r: Run): nat {
    FixedBytes(r) + IntBytes(r.revision) + Name(PhaseName(r.phase)) + Name(ConditionName(r.condition)) + TableBytes(r.roles)
    + (if r.candidate.Some? then CandidateBytes(m, r.candidate.value) else NULL) + OutboxBytes(r.applyOutbox)
    + (if r.synthesisBlocker.Some? then BlockerBytes(r.synthesisBlocker.value) else NULL)
    + (ListFrame(1, |r.receipts|) + ReceiptsSum(r.receipts)) + Quoted(r.blocker) + TimeBytes(r.updatedAt)
  }

  /** The stored text of a source plan, and of a report, on its own. */
  predicate PlanFits(p: Plan) {
    PlanBytes(0, p) + 1 <= MAX_PLAN_BYTES
  }

  predicate ReportFits(report: Report) {
    ReportBytes(0, report) + 1 <= MAX_REPORT_BYTES
  }

  predicate RunFits(m: Measures, r: Run) {
    RunBytes(m, r) <= MAX_RUN_BYTES
  }
}
