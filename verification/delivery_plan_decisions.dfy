/** Exactly which requests the store of Delivery Plans takes, and what it then holds. */
module DeliveryPlanDecisions {
  import opened Errors
  import opened Wrappers
  import opened Repositories
  import opened DeliveryPlans
  import opened Phases = DeliveryPlanPhases
  import opened LoggedStores
  import opened LoggedDecisions
  import opened DeliveryPlanStore

  /** A transition says twice at which revision of the plan it was asked for, or once. */
  predicate SaysRevision(q: Request, revision: int) {
    match q
    case CreatePlan(_, _) => false
    case UpdatePlan(_, planRevision, _, _) => planRevision == revision
    case TransitionPlan(_, planRevision, _, _, c) => planRevision == revision && (c.expectedRevision == None || c.expectedRevision == Some(revision))
  }

  /** What the request asks of the plan it names. */
  function Asked(q: Request, p: Plan, at: int): Result<Plan> {
    match q
    case CreatePlan(_, _) => Err(PlanInvalid)
    case UpdatePlan(_, _, _, patch) => UpdateDefinition(p, patch, at)
    case TransitionPlan(_, _, _, to, c) => Transition(p, to, c.(expectedRevision := Some(p.revision)), at)
  }

  predicate Names(q: Request, id: string) {
    match q
    case CreatePlan(_, _) => false
    case UpdatePlan(_, _, planId, _) => planId == id
    case TransitionPlan(_, _, planId, _, _) => planId == id
  }

  /** A new update or transition of a plan in the store is stored exactly when it was asked of store and plan
      at their present revisions, not before what is logged, the plan accepts it, and it fits. Then this plan is
      replaced, the operation logged, and nothing else changed. */
  lemma ChangeStored(s: PlanStore, id: string, q: Request, at: int, freshId: string, z: Sizes, i: nat, p: Plan)
    requires ValidStore(KindOf(z), s) && Unlogged(s, id) && i < |s.items| && s.items[i] == p && Names(q, p.def.id)
    ensures match Asked(q, p, at)
            case Err(_) => !Decide(KindOf(z), s, Call(id, q, at, freshId)).Commit?
            case Ok(next) =>
              var after := Store(s.revision + 1, s.items[i := next], s.operations + [Operation(id, q, at, s.revision + 1, next)]);
              var decided := Decide(KindOf(z), s, Call(id, q, at, freshId));
              && (decided.Commit? <==>
                    && InTurn(s, id, q.storeRevision, at) && SaysRevision(q, p.revision)
                    && |s.operations| < MAX_OPERATIONS && z.planFits(next) && z.storeFits(after))
              && (decided.Commit? ==> decided == Commit(after, Answer(s.revision + 1, next)))
  {
    hide ValidStore, Apply, ValidPlan, UpdateDefinition, Transition, NextItems, FindItem, FindOperation;
    var c := Call(id, q, at, freshId);
    Unknown(s, id);
    ChronologicalLog(KindOf(z), s, at);
    Replaced(KindOf(z), s, i, p);
    ChangeProduced(s, c, z, p);
    match Asked(q, p, at) {
      case Err(_) =>
      case Ok(next) =>
        AskedKeepsId(q, p, at, next);
        Replaced(KindOf(z), s, i, next);
        if Produce(s, c, z).Ok? {
          AcceptedIsStored(s, c, z);
        }
        ChangeCommits(s, c, z, i, next);
    }
  }

  lemma AskedKeepsId(q: Request, p: Plan, at: int, next: Plan)
    requires Asked(q, p, at) == Ok(next)
    ensures PlanId(next) == PlanId(p)
  {
    hide UpdateDefinition, Transition;
    match q {
      case CreatePlan(_, _) =>
      case UpdatePlan(_, _, _, patch) => ApplyKeepsId(p, Update(patch, at), next);
      case TransitionPlan(_, _, _, to, c) => ApplyKeepsId(p, Move(to, c.(expectedRevision := Some(p.revision)), at), next);
    }
  }

  /** What the store makes of the request, before it looks at sizes. */
  lemma ChangeProduced(s: PlanStore, c: Call, z: Sizes, p: Plan)
    requires Names(c.request, p.def.id) && FindItem(PlanId, s.items, p.def.id) == Some(p)
    ensures Produce(s, c, z).Ok? <==>
              && c.operationId != "" && c.request.storeRevision == s.revision && SaysRevision(c.request, p.revision)
              && |s.operations| < MAX_OPERATIONS && Asked(c.request, p, c.at).Ok? && Chronological(s, c.at)
    ensures Produce(s, c, z).Ok? ==> Produce(s, c, z) == Asked(c.request, p, c.at)
  {
    hide UpdateDefinition, Transition, FindItem, Create;
  }

  lemma ChangeCommits(s: PlanStore, c: Call, z: Sizes, i: nat, next: Plan)
    requires FindOperation(s.operations, c.operationId).None? && i < |s.items| && NextItems(PlanId, s.items, next) == s.items[i := next]
    ensures var after := Store(s.revision + 1, s.items[i := next], s.operations + [Operation(c.operationId, c.request, c.at, s.revision + 1, next)]);
            && (Produce(s, c, z) == Ok(next) ==> NextStore(KindOf(z), s, c, next) == after)
            && (Decide(KindOf(z), s, c).Commit? ==> Produce(s, c, z).Ok?)
            && (Decide(KindOf(z), s, c).Commit? && Produce(s, c, z) == Ok(next) ==> Decide(KindOf(z), s, c) == Commit(after, Answer(s.revision + 1, next)))
  {
    hide ValidStore, Produce, FindOperation, NextItems;
  }

  /** A change of a plan the store does not have is never stored. */
  lemma PlanNotFound(s: PlanStore, c: Call, z: Sizes)
    requires !c.request.CreatePlan? && forall i :: 0 <= i < |s.items| ==> !Names(c.request, s.items[i].def.id)
    requires FindOperation(s.operations, c.operationId).None?
    ensures !Decide(KindOf(z), s, c).Commit?
  {
    hide ValidStore, Apply, NextItems, FindOperation;
    var i := FoundItem(PlanId, s.items, c.request.planId);
  }

  /** A new plan is stored exactly when it was asked for at the present revision of the store, not before what
      is logged, under an id no plan has, as a valid plan that nothing has happened to, and it fits. Then it is
      added, and its creation logged. */
  lemma CreateStored(s: PlanStore, id: string, storeRevision: int, plan: Plan, at: int, freshId: string, z: Sizes)
    requires ValidStore(KindOf(z), s) && Unlogged(s, id)
    ensures var newId := if plan.def.id == "" then freshId else plan.def.id;
            var p := plan.(def := plan.def.(id := newId), revision := 1, createdAt := at, updatedAt := at);
            var after := Store(s.revision + 1, s.items + [p], s.operations + [Operation(id, CreatePlan(storeRevision, plan), at, s.revision + 1, p)]);
            var decided := Decide(KindOf(z), s, Call(id, CreatePlan(storeRevision, plan), at, freshId));
            && (decided.Commit? <==>
                  && InTurn(s, id, storeRevision, at) && |s.operations| < MAX_OPERATIONS && |s.items| < MAX_PLANS
                  && newId != "" && (forall i :: 0 <= i < |s.items| ==> s.items[i].def.id != newId)
                  && ValidPlan(p) && p.phase in {Draft, Planning} && p.approval == NO_APPROVAL && p.gates == NO_GATES && p.blocker == ""
                  && z.planFits(p) && z.storeFits(after))
            && (decided.Commit? ==> decided == Commit(after, Answer(s.revision + 1, p)))
  {
    hide ValidStore, ValidPlan, NextItems, FindItem, FindOperation;
    var c := Call(id, CreatePlan(storeRevision, plan), at, freshId);
    Unknown(s, id);
    ChronologicalLog(KindOf(z), s, at);
    if Produce(s, c, z).Ok? {
      AcceptedIsStored(s, c, z);
      Added(PlanId, s.items, Produce(s, c, z).value);
    }
  }
}
