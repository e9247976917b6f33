/** Definition updates and phase transitions of a Delivery Plan, and what an approval fixes. */
module DeliveryPlanPhases {
  import opened Errors
  import opened Wrappers
  import opened DeliveryPlans

  // ---------------------------------------------------------------- shape checks

  predicate UniqueIds(ids: seq<string>) {
    forall i, j :: 0 <= i < j < |ids| ==> ids[i] != ids[j]
  }

  function RequirementIds(d: Definition): seq<string> {
    seq(|d.roles.ba.requirements|, i requires 0 <= i < |d.roles.ba.requirements| => d.roles.ba.requirements[i].id)
  }

  function StepIds(d: Definition): seq<string> {
    seq(|d.roles.dev.steps|, i requires 0 <= i < |d.roles.dev.steps| => d.roles.dev.steps[i].id)
  }

  function CriterionIds(d: Definition): seq<string> {
    var c := d.roles.qa.acceptanceCriteria;
    seq(|c|, i requires 0 <= i < |c| => c[i].id)
  }

  /** Identifiers are unique and every reference names a known requirement. */
  predicate ShapeOk(d: Definition) {
    && UniqueIds(RequirementIds(d)) && UniqueIds(StepIds(d)) && UniqueIds(CriterionIds(d))
    && (forall s, id :: s in d.roles.dev.steps && id in s.requirementIds ==> id in RequirementIds(d))
    && (forall c, id :: c in d.roles.qa.acceptanceCriteria && id in c.requirementIds ==> id in RequirementIds(d))
  }

  /** The approval fields are all absent or all present with a positive revision. */
  predicate ApprovalShape(a: Approval) {
    a == NO_APPROVAL || (a.digest.Some? && a.approvedAt.Some? && a.planRevision.Some? && a.planRevision.value >= 1)
  }

  /** The rules that depend on the phase. */
  predicate PhaseRules(p: Plan) {
    && (p.phase == ReadyForApproval || p.phase in ApprovalPhases ==> ReadyPlan(p))
    && (p.phase in ApprovalPhases ==> p.approval.digest == Some(p.def))
    && (p.phase in {Verifying, ReadyToRelease, Done} ==> p.gates.implementationCaptured)
    && (p.phase in {ReadyToRelease, Done} ==> p.gates.qaPassed)
    && (p.phase == Done && p.def.roles.qa.releaseRequired ==> p.gates.releaseVerified)
  }

  predicate ValidPlan(p: Plan) {
    ShapeOk(p.def) && p.revision >= 1 && p.createdAt <= p.updatedAt && ApprovalShape(p.approval) && PhaseRules(p)
  }

  function Validated(p: Plan): Result<Plan> {
    if ValidPlan(p) then Ok(p) else Err(PlanInvalid)
  }

  // ---------------------------------------------------------------- updates

  /** A definition patch: the parts it replaces. */
  datatype Patch = Patch(title: Option<string>, request: Option<string>, workspace: Option<string>,
                         unresolvedQuestions: Option<seq<string>>,
                         baseline: Option<(Baseline, Option<int>)>,
                         classification: Option<Classification>, authority: Option<Authority>,
                         po: Option<PoArtifact>, ba: Option<BaArtifact>, dev: Option<DevArtifact>, qa: Option<QaArtifact>)

  function Or<T>(o: Option<T>, default: T): T {
    if o.Some? then o.value else default
  }

  function MergedDefinition(d: Definition, patch: Patch): Definition {
    Definition(d.id, Or(patch.title, d.title), Or(patch.request, d.request), Or(patch.workspace, d.workspace),
               if patch.baseline.Some? then patch.baseline.value.0 else d.baseline,
               Or(patch.classification, d.classification),
               Roles(Or(patch.po, d.roles.po), Or(patch.ba, d.roles.ba), Or(patch.dev, d.roles.dev), Or(patch.qa, d.roles.qa)),
               Or(patch.unresolvedQuestions, d.unresolvedQuestions),
               Or(patch.authority, d.authority))
  }

  function Merged(p: Plan, patch: Patch): Plan {
    p.(def := MergedDefinition(p.def, patch),
       capturedAt := if patch.baseline.Some? then patch.baseline.value.1 else p.capturedAt)
  }

  predicate CarriesApproval(p: Plan) {
    p.approval.digest.Some? || p.phase == ReadyForApproval || p.phase in ApprovalPhases
  }

  function InvalidateApproval(p: Plan, at: int): Result<Plan> {
    if !ShapeOk(p.def) then Err(PlanInvalid) else
    if p.phase in TerminalPhases then Err(PlanTerminal) else
    if !CarriesApproval(p) then Ok(p)
    else
      Validated(p.(revision := p.revision + 1,
                   phase := if ReadyPlan(p) then ReadyForApproval else Planning,
                   approval := NO_APPROVAL, gates := NO_GATES, blocker := "", updatedAt := at))
  }

  function UpdateDefinition(p: Plan, patch: Patch, at: int): Result<Plan> {
    if !ValidPlan(p) then Err(PlanInvalid) else
    if p.phase in TerminalPhases then Err(PlanTerminal) else
    if p.phase in {Executing, Verifying, ReadyToRelease} then Err(PlanExecutionLocked) else
    var candidate := Merged(p, patch);
    if !ShapeOk(candidate.def) then Err(PlanInvalid) else
    if candidate.def == p.def then Ok(p)
    else if CarriesApproval(p) then InvalidateApproval(candidate, at)
    else Validated(candidate.(revision := p.revision + 1, blocker := "", updatedAt := at))
  }

  // ---------------------------------------------------------------- transitions

  datatype Conditions = Conditions(expectedRevision: Option<int>, confirmation: string, reason: string,
                                   deliveryRunAborted: bool, baselineCurrent: bool, workspaceAvailable: bool,
                                   taskGraphReady: bool, remediationApproved: bool,
                                   implementationResultCaptured: bool, qaPassed: bool, releaseVerified: bool)

  function LegalTransitions(from: Phase): set<Phase> {
    match from
    case Draft => {Planning, Canceled}
    case Planning => {NeedsDecision, ReadyForApproval, Blocked, Canceled}
    case NeedsDecision => {Planning, ReadyForApproval, Canceled}
    case ReadyForApproval => {Planning, Approved, Canceled}
    case Approved => {Planning, Executing, Canceled}
    case Executing => {Planning, Verifying, Blocked, Canceled}
    case Verifying => {Planning, Executing, ReadyToRelease, Blocked, Canceled}
    case ReadyToRelease => {Planning, Done, Canceled}
    case Blocked => {Planning, Canceled}
    case Done => {}
    case Canceled => {}
  }

  /** While a delivery runs, only its own progress or a replan after an abort leaves the phase. */
  predicate ExecutionUnlocked(from: Phase, to: Phase, c: Conditions) {
    var replan := to == Planning && c.deliveryRunAborted;
    && (from == Executing ==> to == Verifying || replan)
    && (from == Verifying ==> to in {Executing, ReadyToRelease} || replan)
    && (from == ReadyToRelease ==> to == Done || replan)
  }

  predicate TransitionConditions(p: Plan, to: Phase, c: Conditions) {
    && (to == Canceled ==> c.confirmation == "cancel-plan")
    && (to in {NeedsDecision, Blocked} ==> c.reason != "")
    && (to == ReadyForApproval ==> ReadyPlan(p))
    && (to == Approved ==> c.confirmation == "approve-plan" && ReadyPlan(p))
    && (to == Planning && p.phase in {Approved, Executing, Verifying, ReadyToRelease, Blocked} ==> c.confirmation == "replan")
    && (to == Executing ==>
          && p.approval.digest == Some(p.def) && p.def.authority.workspaceWrite
          && c.baselineCurrent && c.workspaceAvailable && c.taskGraphReady
          && (p.phase == Approved ==> c.confirmation == "start-execution")
          && (p.phase == Verifying ==> c.confirmation == "resume-execution" && c.remediationApproved))
    && (to == Verifying ==> c.implementationResultCaptured)
    && (to == ReadyToRelease ==> c.qaPassed)
    && (to == Done ==> c.confirmation == "complete-plan" && p.gates.qaPassed
                       && (p.def.roles.qa.releaseRequired ==> c.releaseVerified))
  }

  function TransitionGates(p: Plan, to: Phase): Gates {
    if to == Planning && p.approval.digest.Some? then NO_GATES
    else if to == Executing && p.phase == Verifying then NO_GATES
    else if to == Verifying then Gates(true, false, false)
    else if to == ReadyToRelease then p.gates.(qaPassed := true, releaseVerified := false)
    else if to == Done && p.def.roles.qa.releaseRequired then p.gates.(releaseVerified := true)
    else p.gates
  }

  function Transition(p: Plan, to: Phase, c: Conditions, at: int): Result<Plan> {
    if !ValidPlan(p) then Err(PlanInvalid) else
    if to !in LegalTransitions(p.phase) then Err(PlanTransitionInvalid) else
    if !ExecutionUnlocked(p.phase, to, c) then Err(PlanExecutionLocked) else
    if c.expectedRevision.Some? && c.expectedRevision.value != p.revision then Err(PlanRevisionConflict) else
    if !TransitionConditions(p, to, c) then Err(PlanTransitionConditionRequired) else
    Validated(p.(revision := p.revision + 1, phase := to,
                 blocker := if to in {NeedsDecision, Blocked} then c.reason else "",
                 updatedAt := at,
                 approval := if to == Approved then Approval(Some(p.def), Some(at), Some(p.revision + 1))
                             else if to == Planning && p.approval.digest.Some? then NO_APPROVAL
                             else p.approval,
                 gates := TransitionGates(p, to)))
  }

  // ---------------------------------------------------------------- histories

  datatype Op = Update(patch: Patch, at: int) | Move(to: Phase, conditions: Conditions, at: int)

  function Apply(p: Plan, op: Op): Result<Plan> {
    match op
    case Update(patch, at) => UpdateDefinition(p, patch, at)
    case Move(to, conditions, at) => Transition(p, to, conditions, at)
  }

  /** What the store accepts as a new plan. */
  predicate Created(p: Plan) {
    && ValidPlan(p) && p.phase in {Draft, Planning} && p.revision == 1
    && p.approval == NO_APPROVAL && p.gates == NO_GATES && p.blocker == ""
  }

  /** h[0] was created and each operation takes h[i] to h[i + 1]. */
  predicate History(h: seq<Plan>, ops: seq<Op>) {
    && |h| == |ops| + 1
    && Created(h[0])
    && forall i :: 0 <= i < |ops| ==> Apply(h[i], ops[i]) == Ok(h[i + 1])
  }

  /** What every plan in a history satisfies: approval and gates are exactly those of its phase. */
  predicate Lifecycle(p: Plan) {
    && ValidPlan(p)
    && (p.phase !in ApprovalPhases && p.phase != Canceled ==> p.approval == NO_APPROVAL && p.gates == NO_GATES)
    && (p.phase in ApprovalPhases ==> p.approval.digest == Some(p.def))
    && (p.phase in {Approved, Executing} ==> p.gates == NO_GATES)
    && (p.phase == Verifying ==> p.gates == Gates(true, false, false))
    && (p.phase == ReadyToRelease ==> p.gates == Gates(true, true, false))
    && (p.phase == Done ==> p.gates == Gates(true, true, p.def.roles.qa.releaseRequired))
  }

  lemma UpdateKeepsLifecycle(p: Plan, patch: Patch, at: int)
    requires Lifecycle(p) && UpdateDefinition(p, patch, at).Ok?
    ensures Lifecycle(UpdateDefinition(p, patch, at).value)
  {
    hide ShapeOk, ReadyPlan, MergedDefinition;
  }

  lemma MoveKeepsLifecycle(p: Plan, to: Phase, c: Conditions, at: int)
    requires Lifecycle(p) && Transition(p, to, c, at).Ok?
    ensures Lifecycle(Transition(p, to, c, at).value)
  {
    hide ShapeOk, ReadyPlan;
  }

  lemma ApplyKeepsLifecycle(p: Plan, op: Op)
    requires Lifecycle(p) && Apply(p, op).Ok?
    ensures Lifecycle(Apply(p, op).value)
  {
    hide Lifecycle, UpdateDefinition, Transition;
    match op {
      case Update(patch, at) => UpdateKeepsLifecycle(p, patch, at);
      case Move(to, c, at) => MoveKeepsLifecycle(p, to, c, at);
    }
  }

  lemma CreatedLifecycle(p: Plan)
    requires Created(p)
    ensures Lifecycle(p) && p.phase !in ApprovalPhases
  {
    hide ShapeOk, ReadyPlan;
  }

  lemma {:induction false} HistoryKeepsLifecycle(h: seq<Plan>, ops: seq<Op>, i: nat)
    requires History(h, ops) && i < |h|
    ensures Lifecycle(h[i])
  {
    hide Lifecycle, Created, Apply;
    if i == 0 {
      CreatedLifecycle(h[0]);
    } else {
      HistoryKeepsLifecycle(h, ops, i - 1);
      assert Apply(h[i - 1], ops[i - 1]) == Ok(h[i]);
      ApplyKeepsLifecycle(h[i - 1], ops[i - 1]);
    }
  }

  /** Index a of h is an approval step and nothing after it left the approval phases or changed
      the definition or the recorded approval. */
  predicate ApprovedSince(h: seq<Plan>, a: int) {
    && 0 < a < |h|
    && h[a - 1].phase == ReadyForApproval && h[a].phase == Approved
    && h[a].approval == Approval(Some(h[a - 1].def), Some(h[a].updatedAt), Some(h[a].revision))
    && forall j :: a <= j < |h| ==> h[j].phase in ApprovalPhases && h[j].def == h[a - 1].def && h[j].approval == h[a].approval
  }

  /** How an accepted operation can end in an approval phase. */
  predicate StepIntoApproval(p: Plan, q: Plan) {
    if p.phase in ApprovalPhases then
      && q.def == p.def && q.approval == p.approval
      && (q == p || (p.phase == Approved && q.phase == Executing)
          || (p.phase == Executing && q.phase == Verifying)
          || (p.phase == Verifying && q.phase in {Executing, ReadyToRelease})
          || (p.phase == ReadyToRelease && q.phase == Done))
    else
      && p.phase == ReadyForApproval && q.phase == Approved && q.def == p.def
      && q.approval == Approval(Some(p.def), Some(q.updatedAt), Some(q.revision))
  }

  lemma UpdateIntoApproval(p: Plan, patch: Patch, at: int)
    requires Lifecycle(p) && UpdateDefinition(p, patch, at).Ok? && UpdateDefinition(p, patch, at).value.phase in ApprovalPhases
    ensures StepIntoApproval(p, UpdateDefinition(p, patch, at).value)
  {
    hide ShapeOk, ReadyPlan, MergedDefinition;
  }

  lemma MoveIntoApproval(p: Plan, to: Phase, c: Conditions, at: int)
    requires Lifecycle(p) && Transition(p, to, c, at).Ok? && Transition(p, to, c, at).value.phase in ApprovalPhases
    ensures StepIntoApproval(p, Transition(p, to, c, at).value)
  {
    hide ShapeOk, ReadyPlan;
    var q := Transition(p, to, c, at).value;
    assert q.def == p.def && q.phase == to;
    if p.phase !in ApprovalPhases {
      assert to == Approved;
    }
  }

  lemma ApprovalPhaseSteps(p: Plan, op: Op)
    requires Lifecycle(p) && Apply(p, op).Ok? && Apply(p, op).value.phase in ApprovalPhases
    ensures StepIntoApproval(p, Apply(p, op).value)
  {
    hide Lifecycle, UpdateDefinition, Transition, StepIntoApproval;
    match op {
      case Update(patch, at) => UpdateIntoApproval(p, patch, at);
      case Move(to, c, at) => MoveIntoApproval(p, to, c, at);
    }
  }

  /** What the snapshots of a history look like, without the operations between them. */
  predicate Snapshots(h: seq<Plan>) {
    && |h| > 0
    && h[0].phase !in ApprovalPhases
    && (forall i :: 0 < i < |h| && h[i].phase in ApprovalPhases ==> StepIntoApproval(h[i - 1], h[i]))
    && (forall i :: 0 <= i < |h| ==>
          && (h[i].phase == Verifying ==> h[i].gates.implementationCaptured)
          && (h[i].phase == ReadyToRelease ==> h[i].gates.qaPassed))
  }

  lemma HistoryHasSnapshots(h: seq<Plan>, ops: seq<Op>)
    requires History(h, ops)
    ensures Snapshots(h)
  {
    hide Created, Apply, ValidPlan, StepIntoApproval;
    CreatedLifecycle(h[0]);
    forall i | 0 <= i < |h|
      ensures Lifecycle(h[i])
    {
      HistoryKeepsLifecycle(h, ops, i);
    }
    forall i | 0 < i < |h| && h[i].phase in ApprovalPhases
      ensures StepIntoApproval(h[i - 1], h[i])
    {
      assert Apply(h[i - 1], ops[i - 1]) == Ok(h[i]);
      ApprovalPhaseSteps(h[i - 1], ops[i - 1]);
    }
  }

  /** Where the history last entered the approval, execution, capture, release and done phases, as far as it got. */
  datatype Milestones = Milestones(approved: int, executing: int, verifying: int, released: int, done: int)

  predicate Enters(h: seq<Plan>, i: int, phase: Phase) {
    0 < i < |h| && h[i].phase == phase && h[i - 1].phase != phase
  }

  predicate PassedMilestones(h: seq<Plan>, m: Milestones)
    requires |h| > 0
  {
    var last := h[|h| - 1].phase;
    && ApprovedSince(h, m.approved)
    && (last in {Executing, Verifying, ReadyToRelease, Done} ==> m.approved < m.executing && Enters(h, m.executing, Executing))
    && (last in {Verifying, ReadyToRelease, Done} ==>
          m.executing < m.verifying && Enters(h, m.verifying, Verifying) && h[m.verifying].gates.implementationCaptured)
    && (last in {ReadyToRelease, Done} ==>
          m.verifying < m.released && Enters(h, m.released, ReadyToRelease) && h[m.released].gates.qaPassed)
    && (last == Done ==> m.released < m.done && Enters(h, m.done, Done))
  }

  /** One more snapshot inside the approval phases. */
  function NextMilestones(h: seq<Plan>, m: Milestones): Milestones
    requires |h| > 1
  {
    var n := |h| - 1;
    if h[n] == h[n - 1] then m
    else match h[n].phase
         case Executing => m.(executing := n)
         case Verifying => m.(verifying := n)
         case ReadyToRelease => m.(released := n)
         case Done => m.(done := n)
         case _ => m
  }

  lemma ApprovalGoesOn(h: seq<Plan>, a: int)
    requires |h| > 1 && ApprovedSince(h[..|h| - 1], a)
    requires StepIntoApproval(h[|h| - 2], h[|h| - 1]) && h[|h| - 1].phase in ApprovalPhases
    ensures ApprovedSince(h, a)
  {
    var g := h[..|h| - 1];
    assert g[|g| - 1] == h[|h| - 2];
  }

  lemma EntersGrow(h: seq<Plan>, n: nat)
    requires 0 < n == |h| - 1
    ensures forall i, phase :: Enters(h[..n], i, phase) ==> Enters(h, i, phase) && 0 < i < n && h[..n][i] == h[i]
    ensures h[n].phase != h[n - 1].phase ==> Enters(h, n, h[n].phase)
  {
  }

  lemma LastStep(h: seq<Plan>)
    requires Snapshots(h) && |h| > 1 && h[|h| - 1].phase in ApprovalPhases
    ensures StepIntoApproval(h[|h| - 2], h[|h| - 1]) && h[..|h| - 1][|h| - 2] == h[|h| - 2]
    ensures h[|h| - 1].phase == Verifying ==> h[|h| - 1].gates.implementationCaptured
    ensures h[|h| - 1].phase == ReadyToRelease ==> h[|h| - 1].gates.qaPassed
  {
    hide StepIntoApproval;
  }

  /** A history with one more snapshot inside the approval phases, and what stays of its milestones. */
  ghost predicate Grown(h: seq<Plan>, m: Milestones) {
    && |h| > 1 && PassedMilestones(h[..|h| - 1], m) && ApprovedSince(h, m.approved) && m.approved < |h| - 1
    && StepIntoApproval(h[|h| - 2], h[|h| - 1]) && h[|h| - 2].phase in ApprovalPhases
    && (forall i, phase :: Enters(h[..|h| - 1], i, phase) ==> Enters(h, i, phase) && 0 < i < |h| - 1 && h[..|h| - 1][i] == h[i])
    && (h[|h| - 1].phase != h[|h| - 2].phase ==> Enters(h, |h| - 1, h[|h| - 1].phase))
    && (h[|h| - 1].phase == Verifying ==> h[|h| - 1].gates.implementationCaptured)
    && (h[|h| - 1].phase == ReadyToRelease ==> h[|h| - 1].gates.qaPassed)
  }

  lemma SameMilestones(h: seq<Plan>, m: Milestones)
    requires Grown(h, m) && h[|h| - 1] == h[|h| - 2]
    ensures PassedMilestones(h, m)
  {
    hide ApprovedSince, Enters, StepIntoApproval;
    var n, g := |h| - 1, h[..|h| - 1];
    var last := g[|g| - 1].phase;
    assert last == h[n - 1].phase == h[n].phase;
    if last != Approved {
      assert Enters(h, m.executing, Executing);
    }
    if last in {Verifying, ReadyToRelease, Done} {
      assert Enters(h, m.verifying, Verifying) && h[m.verifying].gates.implementationCaptured;
    }
    if last in {ReadyToRelease, Done} {
      assert Enters(h, m.released, ReadyToRelease) && h[m.released].gates.qaPassed;
    }
    if last == Done {
      assert Enters(h, m.done, Done);
    }
  }

  lemma MoreMilestones(h: seq<Plan>, m: Milestones)
    requires Grown(h, m) && h[|h| - 1] != h[|h| - 2]
    ensures PassedMilestones(h, NextMilestones(h, m))
  {
    hide ApprovedSince, Enters;
    var n, g := |h| - 1, h[..|h| - 1];
    var before := g[|g| - 1].phase;
    assert before == h[n - 1].phase;
    if before != Approved {
      assert Enters(h, m.executing, Executing) && m.executing < n;
    }
    if before in {Verifying, ReadyToRelease} {
      assert Enters(h, m.verifying, Verifying) && m.verifying < n && h[m.verifying].gates.implementationCaptured;
    }
    if before == ReadyToRelease {
      assert Enters(h, m.released, ReadyToRelease) && m.released < n && h[m.released].gates.qaPassed;
    }
  }

  lemma MilestonesGoOn(h: seq<Plan>, m: Milestones)
    requires Snapshots(h) && |h| > 1 && h[|h| - 2].phase in ApprovalPhases && h[|h| - 1].phase in ApprovalPhases
    requires PassedMilestones(h[..|h| - 1], m)
    ensures PassedMilestones(h, NextMilestones(h, m))
  {
    hide ApprovedSince, Enters, Snapshots, PassedMilestones, StepIntoApproval, NextMilestones;
    LastStep(h);
    assert ApprovedSince(h[..|h| - 1], m.approved) by { ApprovedInside(h[..|h| - 1], m); }
    ApprovalGoesOn(h, m.approved);
    ApprovalBefore(h[..|h| - 1], m.approved);
    EntersGrow(h, |h| - 1);
    assert Grown(h, m);
    if h[|h| - 1] == h[|h| - 2] {
      SameMilestones(h, m);
      assert NextMilestones(h, m) == m by { NothingNew(h, m); }
    } else {
      MoreMilestones(h, m);
    }
  }

  lemma ApprovedInside(h: seq<Plan>, m: Milestones)
    requires |h| > 0 && PassedMilestones(h, m)
    ensures ApprovedSince(h, m.approved)
  {
    hide ApprovedSince, Enters;
  }

  lemma NothingNew(h: seq<Plan>, m: Milestones)
    requires |h| > 1 && h[|h| - 1] == h[|h| - 2]
    ensures NextMilestones(h, m) == m
  {
  }

  lemma ApprovalBefore(h: seq<Plan>, a: int)
    requires ApprovedSince(h, a)
    ensures 0 < a < |h|
  {
  }

  lemma {:induction false} SnapshotStages(h: seq<Plan>) returns (m: Milestones)
    requires Snapshots(h) && h[|h| - 1].phase in ApprovalPhases
    ensures PassedMilestones(h, m)
    decreases |h|
  {
    hide PassedMilestones, StepIntoApproval;
    var n := |h| - 1;
    assert StepIntoApproval(h[n - 1], h[n]);
    if h[n - 1].phase in ApprovalPhases {
      m := SnapshotStages(h[..n]);
      MilestonesGoOn(h, m);
      m := NextMilestones(h, m);
    } else {
      m := Milestones(n, n, n, n, n);
      JustApproved(h, n);
    }
  }

  lemma JustApproved(h: seq<Plan>, n: nat)
    requires 0 < n == |h| - 1 && StepIntoApproval(h[n - 1], h[n]) && h[n - 1].phase !in ApprovalPhases
    ensures PassedMilestones(h, Milestones(n, n, n, n, n))
  {
  }

  /** What has to be said for a plan to enter these phases. */
  predicate Warrants(p: Plan, to: Phase, c: Conditions) {
    match to
    case Approved => c.confirmation == "approve-plan" && ReadyPlan(p)
    case Executing =>
      && p.def.authority.workspaceWrite && c.baselineCurrent && c.workspaceAvailable && c.taskGraphReady
      && (if p.phase == Approved then c.confirmation == "start-execution" else c.confirmation == "resume-execution" && c.remediationApproved)
    case Verifying => c.implementationResultCaptured
    case ReadyToRelease => c.qaPassed
    case Done => c.confirmation == "complete-plan" && (p.def.roles.qa.releaseRequired ==> c.releaseVerified)
    case _ => true
  }

  /** The operation is a transition to this phase with everything the phase asks for. */
  predicate WarrantedMove(p: Plan, op: Op, to: Phase) {
    match op
    case Update(_, _) => false
    case Move(phase, c, _) => phase == to && Warrants(p, to, c) && (c.expectedRevision == None || c.expectedRevision == Some(p.revision))
  }

  /** An approval phase is entered by a warranted transition only. */
  lemma EnteredByMove(p: Plan, op: Op, q: Plan)
    requires Lifecycle(p) && Apply(p, op) == Ok(q) && q.phase in ApprovalPhases && q.phase != p.phase
    ensures WarrantedMove(p, op, q.phase)
  {
    hide ReadyPlan, ShapeOk, MergedDefinition;
  }

  /** Each milestone of the history was reached by a warranted transition. */
  predicate WarrantedMilestones(h: seq<Plan>, ops: seq<Op>, m: Milestones)
    requires |h| == |ops| + 1
  {
    var last := h[|h| - 1].phase;
    && (0 < m.approved < |h| && WarrantedMove(h[m.approved - 1], ops[m.approved - 1], Approved))
    && (last in {Executing, Verifying, ReadyToRelease, Done} ==>
          0 < m.executing < |h| && WarrantedMove(h[m.executing - 1], ops[m.executing - 1], Executing))
    && (last in {Verifying, ReadyToRelease, Done} ==>
          0 < m.verifying < |h| && WarrantedMove(h[m.verifying - 1], ops[m.verifying - 1], Verifying))
    && (last in {ReadyToRelease, Done} ==>
          0 < m.released < |h| && WarrantedMove(h[m.released - 1], ops[m.released - 1], ReadyToRelease))
    && (last == Done ==> 0 < m.done < |h| && WarrantedMove(h[m.done - 1], ops[m.done - 1], Done))
  }

  lemma EntryWarranted(h: seq<Plan>, ops: seq<Op>, i: int, phase: Phase)
    requires History(h, ops) && Enters(h, i, phase) && phase in ApprovalPhases
    ensures WarrantedMove(h[i - 1], ops[i - 1], phase)
  {
    hide Created, Apply, WarrantedMove, Lifecycle;
    HistoryKeepsLifecycle(h, ops, i - 1);
    assert Apply(h[i - 1], ops[i - 1]) == Ok(h[i]);
    EnteredByMove(h[i - 1], ops[i - 1], h[i]);
  }

  lemma MilestonesWarranted(h: seq<Plan>, ops: seq<Op>, m: Milestones)
    requires History(h, ops) && h[|h| - 1].phase in ApprovalPhases && PassedMilestones(h, m)
    ensures WarrantedMilestones(h, ops, m)
  {
    hide History, WarrantedMove, Enters, ApprovedSince;
    assert |h| == |ops| + 1 by { HistoryLength(h, ops); }
    var last := h[|h| - 1].phase;
    assert Enters(h, m.approved, Approved) by { ApprovalEnters(h, m.approved); }
    EntryWarranted(h, ops, m.approved, Approved);
    EntersInside(h);
    if last != Approved {
      EntryWarranted(h, ops, m.executing, Executing);
    }
    if last in {Verifying, ReadyToRelease, Done} {
      EntryWarranted(h, ops, m.verifying, Verifying);
    }
    if last in {ReadyToRelease, Done} {
      EntryWarranted(h, ops, m.released, ReadyToRelease);
    }
    if last == Done {
      EntryWarranted(h, ops, m.done, Done);
    }
  }

  lemma HistoryLength(h: seq<Plan>, ops: seq<Op>)
    requires History(h, ops)
    ensures |h| == |ops| + 1
  {
  }

  lemma ApprovalEnters(h: seq<Plan>, a: int)
    requires ApprovedSince(h, a)
    ensures Enters(h, a, Approved)
  {
  }

  lemma EntersInside(h: seq<Plan>)
    ensures forall i, phase :: Enters(h, i, phase) ==> 0 < i < |h|
  {
  }

  /** A plan in `approved` through `done` has exactly the definition fixed at its latest approval
      step, and went through all earlier stages since, each entered by a transition that brought what the
      stage asks for: a done plan was approved, started, captured, passed by QA and completed. */
  lemma ApprovalFixesDefinition(h: seq<Plan>, ops: seq<Op>) returns (m: Milestones)
    requires History(h, ops) && h[|h| - 1].phase in ApprovalPhases
    ensures PassedMilestones(h, m) && WarrantedMilestones(h, ops, m)
    ensures h[|h| - 1].def == h[m.approved - 1].def
  {
    hide History, WarrantedMilestones;
    HistoryHasSnapshots(h, ops);
    m := SnapshotStages(h);
    MilestonesWarranted(h, ops, m);
  }

  /** Revisions count: an operation leaves the plan as it is or adds exactly one. */
  predicate Counted(p: Plan, q: Plan) {
    (q == p || q.revision == p.revision + 1) && q.createdAt == p.createdAt && q.def.id == p.def.id
  }

  lemma UpdateCounts(p: Plan, patch: Patch, at: int)
    requires UpdateDefinition(p, patch, at).Ok?
    ensures Counted(p, UpdateDefinition(p, patch, at).value)
  {
    hide ShapeOk, ReadyPlan, PhaseRules;
  }

  lemma MoveCounts(p: Plan, to: Phase, c: Conditions, at: int)
    requires Transition(p, to, c, at).Ok?
    ensures Counted(p, Transition(p, to, c, at).value) && Transition(p, to, c, at).value.revision == p.revision + 1
  {
    hide ShapeOk, ReadyPlan, PhaseRules, TransitionConditions;
  }
}
