/** The store of Delivery Plans, and what an approval means in it. */
module DeliveryPlanStore {
  import opened Errors
  import opened Wrappers
  import opened DeliveryPlans
  import opened Phases = DeliveryPlanPhases
  import opened LoggedStores
  import Repo = Repositories
  import DurableJson

  const MAX_PLANS := 128
  const MAX_OPERATIONS := 1024

  datatype Request =
    | CreatePlan(storeRevision: int, plan: Plan)
    | UpdatePlan(storeRevision: int, planRevision: int, planId: string, patch: Patch)
    | TransitionPlan(storeRevision: int, planRevision: int, planId: string, to: Phase, conditions: Conditions)

  /** A request with its operation id, the time it is served at, and the id a new plan gets when it brings none. */
  datatype Call = Call(operationId: string, request: Request, at: int, freshId: string)

  type PlanStore = Store<Plan, Request>

  /** Whether a plan and a store stay within their byte limits. */
  datatype Sizes = Sizes(planFits: Plan -> bool, storeFits: PlanStore -> bool)

  function PlanId(p: Plan): string {
    p.def.id
  }

  predicate CreateLifecycle(p: Plan) {
    p.phase in {Draft, Planning} && p.revision == 1 && p.approval == NO_APPROVAL && p.gates == NO_GATES && p.blocker == ""
  }

  function NewPlan(plan: Plan, id: string, at: int): Plan {
    plan.(def := plan.def.(id := id), revision := 1, createdAt := at, updatedAt := at)
  }

  /** What the log validator asks of two consecutive snapshots of a plan. */
  predicate SnapshotFollows(q: Request, before: Plan, after: Plan) {
    && after.createdAt == before.createdAt
    && (if q.TransitionPlan? then after.revision == before.revision + 1 else after.revision in {before.revision, before.revision + 1})
  }

  function Create(s: PlanStore, c: Call, z: Sizes, plan: Plan): Result<Plan> {
    var id := if plan.def.id != "" then plan.def.id else c.freshId;
    if |s.operations| >= MAX_OPERATIONS then Err(PlanStoreOperationLimitReached) else
    if |s.items| >= MAX_PLANS then Err(PlanStorePlanLimitReached) else
    if id == "" then Err(PlanStorePlanIdInvalid) else
    if HasItem(PlanId, s.items, id) then Err(PlanStorePlanDuplicate) else
    var p := NewPlan(plan, id, c.at);
    if !ValidPlan(p) then Err(PlanStorePlanInvalid) else
    if !z.planFits(p) then Err(PlanStorePlanTooLarge) else
    if !CreateLifecycle(p) then Err(PlanStoreCreateLifecycleInvalid) else
    if !Chronological(s, c.at) then Err(PlanStoreClockRegressed) else
    Ok(p)
  }

  function Change(s: PlanStore, c: Call, z: Sizes, planId: string, planRevision: int): Result<Plan>
    requires !c.request.CreatePlan?
  {
    var p := FindItem(PlanId, s.items, planId);
    if |s.operations| >= MAX_OPERATIONS then Err(PlanStoreOperationLimitReached) else
    if p.None? then Err(PlanStorePlanNotFound) else
    if p.value.revision != planRevision then Err(PlanStorePlanRevisionConflict) else
    var changed :- Apply(p.value, OpOf(c.request, c.at));
    if !Chronological(s, c.at) then Err(PlanStoreClockRegressed) else
    Ok(changed)
  }

  /** The plan operation of a request; a transition is tied to the revision it was asked for. */
  function OpOf(q: Request, at: int): Op
    requires !q.CreatePlan?
  {
    match q
    case UpdatePlan(_, _, _, patch) => Update(patch, at)
    case TransitionPlan(_, revision, _, to, conditions) => Move(to, conditions.(expectedRevision := Some(revision)), at)
  }

  /** What a new operation makes of the store: the next snapshot of one plan. */
  function Produce(s: PlanStore, c: Call, z: Sizes): Result<Plan> {
    if c.operationId == "" then Err(PlanStoreOperationIdInvalid) else
    if s.revision != c.request.storeRevision then Err(PlanStoreRevisionConflict) else
    match c.request
    case CreatePlan(_, plan) => Create(s, c, z, plan)
    case UpdatePlan(_, revision, id, _) => Change(s, c, z, id, revision)
    case TransitionPlan(_, revision, id, _, conditions) =>
      if conditions.expectedRevision.Some? && conditions.expectedRevision.value != revision
      then Err(PlanStoreExpectedPlanRevisionConflict) else
      Change(s, c, z, id, revision)
  }

  function KindOf(z: Sizes): Kind<Plan, Call, Request> {
    Kind(PlanId,
         (p: Plan) => ValidPlan(p) && z.planFits(p),
         (q: Request) => q.CreatePlan?,
         (p: Plan) => CreateLifecycle(p),
         (q: Request, at: int, before: Plan, after: Plan) => SnapshotFollows(q, before, after),
         MAX_PLANS, MAX_OPERATIONS, z.storeFits,
         (c: Call) => c.operationId, (c: Call) => c.request, (c: Call) => c.at,
         (s: PlanStore, c: Call) => Produce(s, c, z))
  }

  /** The snapshot is a new plan, or what an update or a transition made of the one before. */
  predicate PlanLaw(q: Request, at: int, before: Option<Plan>, after: Plan) {
    match q
    case CreatePlan(_, plan) => before.None? && Created(after) && after == NewPlan(plan, after.def.id, at)
    case _ => before.Some? && Apply(before.value, OpOf(q, at)) == Ok(after)
  }

  function MeaningOf(): Meaning<Plan, Request> {
    Meaning((q: Request, at: int, before: Option<Plan>, after: Plan) => PlanLaw(q, at, before, after), (items: seq<Plan>) => true)
  }

  // ---------------------------------------------------------------- what the store holds

  lemma ApplyKeepsId(p: Plan, op: Op, q: Plan)
    requires Apply(p, op) == Ok(q)
    ensures PlanId(q) == PlanId(p) && q.createdAt == p.createdAt
    ensures ValidPlan(q)
    ensures if op.Move? then q.revision == p.revision + 1 else q.revision in {p.revision, p.revision + 1}
  {
    hide UpdateDefinition, Transition, ValidPlan;
    match op {
      case Update(patch, at) =>
        UpdateCounts(p, patch, at);
        UpdateValid(p, patch, at);
      case Move(to, c, at) =>
        MoveCounts(p, to, c, at);
        MoveValid(p, to, c, at);
    }
  }

  lemma UpdateValid(p: Plan, patch: Patch, at: int)
    requires UpdateDefinition(p, patch, at).Ok?
    ensures ValidPlan(UpdateDefinition(p, patch, at).value)
  {
    hide ValidPlan, MergedDefinition, ReadyPlan, ShapeOk;
  }

  lemma MoveValid(p: Plan, to: Phase, c: Conditions, at: int)
    requires Transition(p, to, c, at).Ok?
    ensures ValidPlan(Transition(p, to, c, at).value)
  {
    hide ValidPlan, TransitionConditions;
  }

  /** The plan a change starts from, and what it makes of it. */
  lemma ChangeApplies(s: PlanStore, c: Call, z: Sizes)
    requires !c.request.CreatePlan? && Produce(s, c, z).Ok?
    ensures var before, after := FindItem(PlanId, s.items, c.request.planId), Produce(s, c, z).value;
            before.Some? && Apply(before.value, OpOf(c.request, c.at)) == Ok(after) && PlanId(after) == c.request.planId
    ensures Chronological(s, c.at) && |s.operations| < MAX_OPERATIONS && c.operationId != ""
  {
    hide Apply, Create, FindItem, HasItem, ValidPlan;
    var i := FoundItem(PlanId, s.items, c.request.planId);
    ApplyKeepsId(FindItem(PlanId, s.items, c.request.planId).value, OpOf(c.request, c.at), Produce(s, c, z).value);
  }

  lemma CreateMakes(s: PlanStore, c: Call, z: Sizes)
    requires c.request.CreatePlan? && Produce(s, c, z).Ok?
    ensures var p := Produce(s, c, z).value;
            && Created(p) && z.planFits(p) && p == NewPlan(c.request.plan, PlanId(p), c.at) && !HasItem(PlanId, s.items, PlanId(p))
    ensures Chronological(s, c.at) && |s.operations| < MAX_OPERATIONS && |s.items| < MAX_PLANS && c.operationId != ""
  {
    hide ValidPlan, Change;
  }

  lemma ProducesLawfully(s: PlanStore, c: Call, z: Sizes)
    requires ValidStore(KindOf(z), s)
    ensures Produces(KindOf(z), MeaningOf(), s, c)
  {
    hide ValidStore, Produce, Created, Apply, Latest, HasItem, ValidPlan;
    if Produce(s, c, z).Ok? {
      var p := Produce(s, c, z).value;
      LatestIsCurrent(KindOf(z), s, PlanId(p));
      var i := FoundItem(PlanId, s.items, PlanId(p));
      if c.request.CreatePlan? {
        CreateMakes(s, c, z);
      } else {
        ChangeApplies(s, c, z);
      }
    }
  }

  /** The plan store is one that the generic repository can keep. */
  lemma PlanStoreWellMade(z: Sizes)
    requires z.storeFits(Empty())
    ensures WellMade(KindOf(z), MeaningOf())
  {
    hide Produces, ValidStore, Lawful, Apply, ValidPlan;
    forall s: PlanStore, c: Call | Healthy(KindOf(z), MeaningOf(), s) ensures Produces(KindOf(z), MeaningOf(), s, c) {
      ProducesLawfully(s, c, z);
    }
  }

  /** An accepted request is stored exactly when plan and store fit: the log validator never rejects it. */
  lemma AcceptedIsStored(s: PlanStore, c: Call, z: Sizes)
    requires ValidStore(KindOf(z), s) && FindOperation(s.operations, c.operationId).None? && Produce(s, c, z).Ok?
    ensures var p := Produce(s, c, z).value;
            Decide(KindOf(z), s, c).Commit? <==> z.planFits(p) && z.storeFits(NextStore(KindOf(z), s, c, p))
  {
    hide ValidStore, Produce, Apply, ValidPlan, FindItem, NextItems;
    var p := Produce(s, c, z).value;
    var i := FoundItem(PlanId, s.items, PlanId(p));
    if c.request.CreatePlan? {
      CreateMakes(s, c, z);
    } else {
      ChangeApplies(s, c, z);
      ApplyKeepsId(FindItem(PlanId, s.items, c.request.planId).value, OpOf(c.request, c.at), p);
    }
    NextItemsSize(KindOf(z), s, p);
    StoredWhenItFits(KindOf(z), s, c, p);
  }

  // ---------------------------------------------------------------- plans over the life of a repository

  /** The snapshots of a plan in the log, oldest first. */
  function PlansOf(trail: seq<Operation<Plan, Request>>): seq<Plan> {
    seq(|trail|, i requires 0 <= i < |trail| => trail[i].item)
  }

  /** Each operation is the one its request asks for. */
  predicate AskedFor(trail: seq<Operation<Plan, Request>>, ops: seq<Op>) {
    && |trail| == |ops| + 1
    && forall i :: 0 < i < |trail| ==> !trail[i].request.CreatePlan? && ops[i - 1] == OpOf(trail[i].request, trail[i].at)
  }

  /** A lawful trail is a history: a created plan and what updates and transitions made of it. */
  lemma TrailIsHistory(trail: seq<Operation<Plan, Request>>) returns (ops: seq<Op>)
    requires LawfulTrail(MeaningOf(), trail) && trail != []
    ensures History(PlansOf(trail), ops) && AskedFor(trail, ops)
  {
    hide Created, Apply;
    assert PlanLaw(trail[0].request, trail[0].at, None, trail[0].item);
    assert trail[0].request.CreatePlan?;
    forall i | 0 < i < |trail|
      ensures PlanLaw(trail[i].request, trail[i].at, Some(trail[i - 1].item), trail[i].item) && !trail[i].request.CreatePlan?
    {
    }
    ops := seq(|trail| - 1, i requires 0 <= i < |trail| - 1 => OpOf(trail[i + 1].request, trail[i + 1].at));
    var h := PlansOf(trail);
    forall i | 0 <= i < |ops| ensures Apply(h[i], ops[i]) == Ok(h[i + 1]) {
      assert PlanLaw(trail[i + 1].request, trail[i + 1].at, Some(trail[(i + 1) - 1].item), trail[i + 1].item);
    }
  }

  /** The store on disk after any history of calls, write outcomes and restarts, from an empty directory. */
  function StoreAfter(z: Sizes, moves: seq<Repo.Move<Call>>): PlanStore {
    Repo.View(Repo.After(Repo.State(DurableJson.Absent, None, false), StoreLogic(KindOf(z)), moves).disk, Empty())
  }

  lemma StoreAfterHealthy(z: Sizes, moves: seq<Repo.Move<Call>>)
    requires z.storeFits(Empty())
    ensures Healthy(KindOf(z), MeaningOf(), StoreAfter(z, moves))
  {
    hide Apply, ValidPlan, Repo.After;
    PlanStoreWellMade(z);
    HealthyAfter(KindOf(z), MeaningOf(), moves);
  }

  /** Only an approving transition leads from a plan that is ready for approval to an approved one. */
  lemma ApprovedByTransition(p: Plan, op: Op, q: Plan)
    requires Apply(p, op) == Ok(q) && p.phase == ReadyForApproval && q.phase == Approved
    ensures op.Move? && op.to == Approved && op.conditions.confirmation == "approve-plan" && ReadyPlan(p)
    ensures op.conditions.expectedRevision.Some? ==> op.conditions.expectedRevision.value == p.revision
  {
    hide ReadyPlan, ShapeOk, MergedDefinition, PhaseRules;
  }

  /** The request asks for the transition to this phase, at the present revision, with everything the phase asks for. */
  predicate WarrantedRequest(q: Request, before: Plan, to: Phase) {
    match q
    case TransitionPlan(_, revision, _, phase, c) => phase == to && revision == before.revision && Warrants(before, to, c)
    case _ => false
  }

  /** The i-th snapshot of a plan was asked for by a warranted request on the snapshot before. */
  predicate WarrantedEntry(trail: seq<Operation<Plan, Request>>, i: int, to: Phase) {
    0 < i < |trail| && trail[i].item.phase == to && WarrantedRequest(trail[i].request, trail[i - 1].item, to)
  }

  /** All the requests that brought the plan where it is. */
  predicate WarrantedTrail(trail: seq<Operation<Plan, Request>>, phase: Phase, m: Milestones) {
    && WarrantedEntry(trail, m.approved, Approved)
    && (phase in {Executing, Verifying, ReadyToRelease, Done} ==> m.approved < m.executing && WarrantedEntry(trail, m.executing, Executing))
    && (phase in {Verifying, ReadyToRelease, Done} ==> m.executing < m.verifying && WarrantedEntry(trail, m.verifying, Verifying))
    && (phase in {ReadyToRelease, Done} ==> m.verifying < m.released && WarrantedEntry(trail, m.released, ReadyToRelease))
    && (phase == Done ==> m.released < m.done && WarrantedEntry(trail, m.done, Done))
  }

  /** However a store came about, a plan it holds in `approved` through `done` was approved by a logged
      `approve-plan` request for exactly the revision and definition it was asked for; the plan still has
      that definition, and each stage up to its phase was entered since by a logged request that brought what the
      stage asks for: a done plan has a logged request saying that QA passed. */
  lemma StoredApproval(z: Sizes, moves: seq<Repo.Move<Call>>, id: string) returns (m: Milestones)
    requires z.storeFits(Empty())
    requires var p := FindItem(PlanId, StoreAfter(z, moves).items, id); p.Some? && p.value.phase in ApprovalPhases
    ensures var s := StoreAfter(z, moves);
            var (p, trail) := (FindItem(PlanId, s.items, id).value, Trail(KindOf(z), s.operations, id));
            && trail != [] && p == trail[|trail| - 1].item && PassedMilestones(PlansOf(trail), m)
            && WarrantedTrail(trail, p.phase, m)
            && p.def == trail[m.approved - 1].item.def && p.approval.digest == Some(p.def)
  {
    hide Healthy, PassedMilestones, ValidStore, LawfulTrail, History, FindItem, Trail, Latest, StoreAfter, Lawful,
      Apply, ValidPlan, WarrantedTrail, WarrantedMilestones;
    var s := StoreAfter(z, moves);
    var trail := Trail(KindOf(z), s.operations, id);
    StoreAfterHealthy(z, moves);
    HealthyTrail(KindOf(z), MeaningOf(), s, id);
    var ops := TrailIsHistory(trail);
    m := ApprovalFixesDefinition(PlansOf(trail), ops);
    RequestsWarranted(trail, ops, m);
    ApprovedDefinition(PlansOf(trail), m);
  }

  lemma ApprovedDefinition(h: seq<Plan>, m: Milestones)
    requires |h| > 0 && PassedMilestones(h, m)
    ensures var p := h[|h| - 1]; 0 < m.approved < |h| && p.def == h[m.approved - 1].def && p.approval.digest == Some(p.def)
  {
    hide Enters;
  }

  lemma RequestWarranted(q: Request, at: int, p: Plan, to: Phase)
    requires !q.CreatePlan? && WarrantedMove(p, OpOf(q, at), to)
    ensures WarrantedRequest(q, p, to)
  {
    hide ReadyPlan;
  }

  lemma EntryRequested(trail: seq<Operation<Plan, Request>>, ops: seq<Op>, i: int, to: Phase)
    requires AskedFor(trail, ops) && Enters(PlansOf(trail), i, to) && WarrantedMove(PlansOf(trail)[i - 1], ops[i - 1], to)
    ensures WarrantedEntry(trail, i, to)
  {
    hide WarrantedMove, WarrantedRequest, OpOf;
    RequestWarranted(trail[i].request, trail[i].at, trail[i - 1].item, to);
  }

  lemma RequestsWarranted(trail: seq<Operation<Plan, Request>>, ops: seq<Op>, m: Milestones)
    requires AskedFor(trail, ops) && PassedMilestones(PlansOf(trail), m) && WarrantedMilestones(PlansOf(trail), ops, m)
    ensures WarrantedTrail(trail, trail[|trail| - 1].item.phase, m)
  {
    hide WarrantedMove, OpOf, WarrantedEntry, AskedFor, Enters, ApprovedSince;
    var h := PlansOf(trail);
    assert h[|h| - 1] == trail[|trail| - 1].item;
    hide PlansOf;
    ApprovalEnters(h, m.approved);
    EntryRequested(trail, ops, m.approved, Approved);
    if h[|h| - 1].phase in {Executing, Verifying, ReadyToRelease, Done} {
      EntryRequested(trail, ops, m.executing, Executing);
    }
    if h[|h| - 1].phase in {Verifying, ReadyToRelease, Done} {
      EntryRequested(trail, ops, m.verifying, Verifying);
    }
    if h[|h| - 1].phase in {ReadyToRelease, Done} {
      EntryRequested(trail, ops, m.released, ReadyToRelease);
    }
    if h[|h| - 1].phase == Done {
      EntryRequested(trail, ops, m.done, Done);
    }
  }
}
