/** Exactly which transitions and updates of a Delivery Plan are accepted, and what they make of it. */
module DeliveryPlanDiagram {
  import opened Wrappers
  import opened DeliveryPlans
  import opened DeliveryPlanPhases

  /** The phases a plan can go to: what is left of the table of transitions once a running delivery is locked. */
  predicate Edge(from: Phase, to: Phase, runAborted: bool) {
    match from
    case Draft => to in {Planning, Canceled}
    case Planning => to in {NeedsDecision, ReadyForApproval, Blocked, Canceled}
    case NeedsDecision => to in {Planning, ReadyForApproval, Canceled}
    case ReadyForApproval => to in {Planning, Approved, Canceled}
    case Approved => to in {Planning, Executing, Canceled}
    case Executing => to == Verifying || (to == Planning && runAborted)
    case Verifying => to in {Executing, ReadyToRelease} || (to == Planning && runAborted)
    case ReadyToRelease => to == Done || (to == Planning && runAborted)
    case Blocked => to in {Planning, Canceled}
    case Done => false
    case Canceled => false
  }

  /** What has to be said to get there. */
  predicate Asks(p: Plan, to: Phase, c: Conditions) {
    match to
    case Planning => p.phase in {Draft, NeedsDecision, ReadyForApproval} || c.confirmation == "replan"
    case NeedsDecision => c.reason != ""
    case Blocked => c.reason != ""
    case ReadyForApproval => ReadyPlan(p)
    case Canceled => c.confirmation == "cancel-plan"
    case Draft => false
    case _ => Warrants(p, to, c)
  }

  /** Readiness is a matter of the definition and of whether its baseline was captured. */
  lemma SameReadiness(p: Plan)
    ensures forall q: Plan :: q.def == p.def && q.capturedAt == p.capturedAt ==> (ReadyPlan(q) <==> ReadyPlan(p))
  {
    hide HasDiscoveryBaseline, OpenQuestions, CoveredByStep, CoveredByCriterion;
  }

  /** A reachable plan accepts exactly these transitions. */
  lemma TransitionAccepted(p: Plan, to: Phase, c: Conditions, at: int)
    requires Lifecycle(p)
    ensures Transition(p, to, c, at).Ok? <==>
      && Edge(p.phase, to, c.deliveryRunAborted) && Asks(p, to, c) && p.createdAt <= at
      && (c.expectedRevision == None || c.expectedRevision == Some(p.revision))
  {
    hide ReadyPlan, ShapeOk, Edge, Asks, TransitionConditions, LegalTransitions, ExecutionUnlocked, PhaseRules, Validated, Transition;
    assert Edge(p.phase, to, c.deliveryRunAborted) <==> to in LegalTransitions(p.phase) && ExecutionUnlocked(p.phase, to, c) by { Edges(p.phase, to, c); }
    if Edge(p.phase, to, c.deliveryRunAborted) {
      SameConditions(p, to, c);
    }
    if to in LegalTransitions(p.phase) && TransitionConditions(p, to, c) {
      NextValid(p, to, c, at);
    }
    TransitionGuard(p, to, c, at);
  }

  lemma TransitionGuard(p: Plan, to: Phase, c: Conditions, at: int)
    requires ValidPlan(p)
    ensures Transition(p, to, c, at).Ok? <==>
      && to in LegalTransitions(p.phase) && ExecutionUnlocked(p.phase, to, c) && TransitionConditions(p, to, c)
      && (c.expectedRevision == None || c.expectedRevision == Some(p.revision))
      && ValidPlan(Moved(p, to, c, at))
  {
    hide ValidPlan, LegalTransitions, ExecutionUnlocked, TransitionConditions, TransitionGates;
  }

  /** The plan after the transition, before it is validated. */
  function Moved(p: Plan, to: Phase, c: Conditions, at: int): Plan {
    p.(revision := p.revision + 1, phase := to, blocker := if to in {NeedsDecision, Blocked} then c.reason else "", updatedAt := at,
       approval := if to == Approved then Approval(Some(p.def), Some(at), Some(p.revision + 1))
                   else if to == Planning && p.approval.digest.Some? then NO_APPROVAL else p.approval,
       gates := TransitionGates(p, to))
  }

  lemma Edges(from: Phase, to: Phase, c: Conditions)
    ensures Edge(from, to, c.deliveryRunAborted) <==> to in LegalTransitions(from) && ExecutionUnlocked(from, to, c)
  {
  }

  lemma SameConditions(p: Plan, to: Phase, c: Conditions)
    requires Lifecycle(p) && Edge(p.phase, to, c.deliveryRunAborted)
    ensures TransitionConditions(p, to, c) <==> Asks(p, to, c)
  {
    hide ReadyPlan, ShapeOk;
  }

  lemma NextValid(p: Plan, to: Phase, c: Conditions, at: int)
    requires Lifecycle(p) && to in LegalTransitions(p.phase) && TransitionConditions(p, to, c)
    ensures ValidPlan(Moved(p, to, c, at)) <==> p.createdAt <= at
  {
    hide ReadyPlan, ShapeOk;
    SameReadiness(p);
  }

  /** Each counts one revision and leaves the definition alone; only an approval gives approval fields, and only
      replanning takes them away. */
  lemma TransitionResult(p: Plan, to: Phase, c: Conditions, at: int, q: Plan)
    requires Lifecycle(p) && Transition(p, to, c, at) == Ok(q)
    ensures q.def == p.def && q.capturedAt == p.capturedAt && q.revision == p.revision + 1 && q.phase == to
    ensures q.createdAt == p.createdAt && q.updatedAt == at && q.blocker == if to in {NeedsDecision, Blocked} then c.reason else ""
    ensures q.approval == if to == Approved then Approval(Some(p.def), Some(at), Some(p.revision + 1))
                          else if to == Planning then NO_APPROVAL else p.approval
  {
    hide ReadyPlan, ShapeOk, TransitionConditions;
  }

  /** Either the new value, or the old one. */
  predicate Takes<T(==)>(patch: Option<T>, before: T, after: T) {
    match patch
    case None => after == before
    case Some(value) => after == value
  }

  /** Part by part, the definition is the patched one. */
  predicate Patched(before: Definition, patch: Patch, after: Definition) {
    && after.id == before.id && Takes(patch.title, before.title, after.title) && Takes(patch.request, before.request, after.request)
    && Takes(patch.workspace, before.workspace, after.workspace)
    && (match patch.baseline
        case None => after.baseline == before.baseline
        case Some((baseline, _)) => after.baseline == baseline)
    && Takes(patch.classification, before.classification, after.classification)
    && Takes(patch.po, before.roles.po, after.roles.po) && Takes(patch.ba, before.roles.ba, after.roles.ba)
    && Takes(patch.dev, before.roles.dev, after.roles.dev) && Takes(patch.qa, before.roles.qa, after.roles.qa)
    && Takes(patch.unresolvedQuestions, before.unresolvedQuestions, after.unresolvedQuestions)
    && Takes(patch.authority, before.authority, after.authority)
  }

  /** A reachable plan takes exactly the updates that leave its identifiers in order, before execution. One that
      changes nothing leaves the plan as it is; any other counts one revision and withdraws an approval, and a plan
      that had got as far as being ready for it falls back to planning unless it still is. */
  lemma UpdateAccepted(p: Plan, patch: Patch, at: int, d: Definition)
    requires Lifecycle(p) && Patched(p.def, patch, d)
    ensures UpdateDefinition(p, patch, at).Ok? <==>
      && p.phase in {Draft, Planning, NeedsDecision, ReadyForApproval, Approved, Blocked} && ShapeOk(d)
      && (d == p.def || p.createdAt <= at)
    ensures match UpdateDefinition(p, patch, at)
            case Err(_) => true
            case Ok(q) =>
              if d == p.def then q == p
              else
                && q.def == d && q.revision == p.revision + 1 && q.approval == NO_APPROVAL && q.gates == NO_GATES && q.blocker == ""
                && q.createdAt == p.createdAt && q.updatedAt == at
                && q.phase == (if p.phase !in {ReadyForApproval, Approved} then p.phase
                               else if ReadyPlan(q) then ReadyForApproval else Planning)
  {
    hide ReadyPlan, ShapeOk;
    SameReadiness(Merged(p, patch));
    assert MergedDefinition(p.def, patch) == d;
  }

  // ---------------------------------------------------------------- stored plans

  /** Each id names one thing, and every requirement a step or a criterion refers to is there. */
  ghost predicate OwnIds(d: Definition) {
    var (requirements, steps, criteria) := (d.roles.ba.requirements, d.roles.dev.steps, d.roles.qa.acceptanceCriteria);
    && (forall i, j :: 0 <= i < j < |requirements| ==> requirements[i].id != requirements[j].id)
    && (forall i, j :: 0 <= i < j < |steps| ==> steps[i].id != steps[j].id)
    && (forall i, j :: 0 <= i < j < |criteria| ==> criteria[i].id != criteria[j].id)
    && (forall i, id :: 0 <= i < |steps| && id in steps[i].requirementIds ==> Required(d, id))
    && (forall i, id :: 0 <= i < |criteria| && id in criteria[i].requirementIds ==> Required(d, id))
  }

  predicate Required(d: Definition, id: string) {
    exists i :: 0 <= i < |d.roles.ba.requirements| && d.roles.ba.requirements[i].id == id
  }

  /** A plan on its way has to be ready from the day it waits for approval, approved as it is, captured to be verified,
      passed to be released, and released, where that is required, to be done. */
  predicate PhaseTable(p: Plan) {
    match p.phase
    case ReadyForApproval => ReadyPlan(p)
    case Approved => ReadyPlan(p) && p.approval.digest == Some(p.def)
    case Executing => ReadyPlan(p) && p.approval.digest == Some(p.def)
    case Verifying => ReadyPlan(p) && p.approval.digest == Some(p.def) && p.gates.implementationCaptured
    case ReadyToRelease => ReadyPlan(p) && p.approval.digest == Some(p.def) && p.gates.implementationCaptured && p.gates.qaPassed
    case Done =>
      && ReadyPlan(p) && p.approval.digest == Some(p.def) && p.gates.implementationCaptured && p.gates.qaPassed
      && (p.def.roles.qa.releaseRequired ==> p.gates.releaseVerified)
    case _ => true
  }

  /** Approved at a time and a revision, or not at all. */
  predicate ApprovalTable(a: Approval) {
    match a.digest
    case None => a.approvedAt == None && a.planRevision == None
    case Some(_) => a.approvedAt != None && match a.planRevision case None => false case Some(n) => n >= 1
  }

  lemma IdsMean(d: Definition)
    ensures ShapeOk(d) <==> OwnIds(d)
  {
    forall id ensures id in RequirementIds(d) <==> Required(d, id) {
      if Required(d, id) {
        var i :| 0 <= i < |d.roles.ba.requirements| && d.roles.ba.requirements[i].id == id;
        assert RequirementIds(d)[i] == id;
      }
    }
    assert forall i :: 0 <= i < |d.roles.ba.requirements| ==> RequirementIds(d)[i] == d.roles.ba.requirements[i].id;
    assert forall i :: 0 <= i < |d.roles.dev.steps| ==> StepIds(d)[i] == d.roles.dev.steps[i].id;
    assert forall i :: 0 <= i < |d.roles.qa.acceptanceCriteria| ==> CriterionIds(d)[i] == d.roles.qa.acceptanceCriteria[i].id;
  }

  lemma PhaseMeans(p: Plan)
    ensures PhaseRules(p) <==> PhaseTable(p)
  {
    hide ReadyPlan;
  }

  lemma ApprovalMeans(a: Approval)
    ensures ApprovalShape(a) <==> ApprovalTable(a)
  {
    match a.digest {
      case None =>
      case Some(_) =>
    }
  }

  /** The validator accepts exactly the plans with ids in order, an approval that is complete or absent, and what
      their phase calls for. */
  lemma ValidMeans(p: Plan)
    ensures ValidPlan(p) <==> p.revision >= 1 && p.createdAt <= p.updatedAt && OwnIds(p.def) && ApprovalTable(p.approval) && PhaseTable(p)
  {
    hide ShapeOk, OwnIds, ApprovalShape, ApprovalTable, PhaseRules, PhaseTable;
    IdsMean(p.def);
    ApprovalMeans(p.approval);
    PhaseMeans(p);
  }

  /** A ready plan leaves nothing open anywhere. */
  lemma NothingOpen(p: Plan)
    requires ReadyPlan(p)
    ensures p.def.unresolvedQuestions == p.def.roles.po.openQuestions == p.def.roles.ba.openQuestions == []
    ensures p.def.roles.dev.openQuestions == p.def.roles.qa.openQuestions == []
  {
    hide FieldsPresent, HasDiscoveryBaseline, CoveredByStep, CoveredByCriterion;
    assert |OpenQuestions(p.def)| == 0;
  }
}
