/** Exactly which requests the store of Delivery Runs takes, and what it then holds. */
module DeliveryRunDecisions {
  import opened Wrappers
  import opened Repositories
  import opened DeliveryRuns
  import opened LoggedStores
  import opened LoggedDecisions
  import opened DeliveryRunStore

  /** The evidence of an abort is dated by the operation that brings it; the other steps come as asked. */
  predicate DatedStep(asked: Step, at: int, s: Step) {
    match asked
    case AbortRun(confirmed, reason, evidence) =>
      && s.AbortRun? && s.confirmed == confirmed && s.reason == reason && |s.evidence| == |evidence|
      && forall i :: 0 <= i < |evidence| ==> s.evidence[i] == evidence[i].(createdAt := at)
    case _ => s == asked
  }

  lemma TimedIsDated(asked: Step, at: int, s: Step)
    ensures DatedStep(asked, at, s) <==> s == TimedStep(asked, at)
  {
    if asked.AbortRun? && DatedStep(asked, at, s) {
      assert s.evidence == TimedEvidence(asked.evidence, at);
    }
  }

  /** A new step of a run in the store is stored exactly when it was asked of store and run at their present
      revisions, not before what is logged, the run accepts it, and it fits. Then this run is replaced, the
      operation logged, and nothing else changed. */
  lemma ChangeStored(s: RunStore, id: string, storeRevision: int, runRevision: int, asked: Step, at: int, freshId: string, z: Sizes, i: nat, r: Run, step: Step)
    requires ValidStore(KindOf(z), s) && Unlogged(s, id) && i < |s.items| && s.items[i] == r && DatedStep(asked, at, step)
    ensures var q := ChangeRun(storeRevision, runRevision, r.id, asked);
            match Perform(r, step, at)
            case Err(_) => !Decide(KindOf(z), s, Call(id, q, at, freshId)).Commit?
            case Ok(next) =>
              var after := Store(s.revision + 1, s.items[i := next], s.operations + [Operation(id, q, at, s.revision + 1, next)]);
              var decided := Decide(KindOf(z), s, Call(id, q, at, freshId));
              && (decided.Commit? <==>
                    && InTurn(s, id, storeRevision, at) && runRevision == r.revision
                    && |s.operations| < MAX_OPERATIONS && z.runFits(next) && z.storeFits(after))
              && (decided.Commit? ==> decided == Commit(after, Answer(s.revision + 1, next)))
  {
    hide ValidStore, Perform, ValidRun, NextItems, FindItem, FindOperation, TimedStep, DatedStep, CreateRun;
    var c := Call(id, ChangeRun(storeRevision, runRevision, r.id, asked), at, freshId);
    Unknown(s, id);
    ChronologicalLog(KindOf(z), s, at);
    Replaced(KindOf(z), s, i, r);
    TimedIsDated(asked, at, step);
    if Perform(r, step, at).Ok? {
      var next := Perform(r, step, at).value;
      PerformFollows(r, c.request, at, next);
      Replaced(KindOf(z), s, i, next);
      if Produce(s, c, z).Ok? {
        AcceptedIsStored(s, c, z);
      }
    }
  }

  /** A step of a run the store does not have is never stored. */
  lemma RunNotFound(s: RunStore, c: Call, z: Sizes)
    requires c.request.ChangeRun? && forall i :: 0 <= i < |s.items| ==> s.items[i].id != c.request.runId
    requires FindOperation(s.operations, c.operationId).None?
    ensures !Decide(KindOf(z), s, c).Commit?
  {
    hide ValidStore, Perform, NextItems, FindOperation, CreateRun;
    var i := FoundItem(RunId, s.items, c.request.runId);
  }

  /** A new run is stored exactly when it was asked for at the present revision of the store, not before what is
      logged, under an id no run has, on an input it can be created from, for a plan definition no run carries
      out or ever carried out, and it fits. Then it is added, and its creation logged. */
  lemma CreateStored(s: RunStore, id: string, storeRevision: int, origin: Origin, at: int, freshId: string, z: Sizes)
    requires ValidStore(KindOf(z), s) && Unlogged(s, id)
    ensures var newId := if origin.id == "" then freshId else origin.id;
            var q := NewRun(storeRevision, origin);
            match CreateRun(origin.(id := newId, at := at))
            case Err(_) => !Decide(KindOf(z), s, Call(id, q, at, freshId)).Commit?
            case Ok(r) =>
              var after := Store(s.revision + 1, s.items + [r], s.operations + [Operation(id, q, at, s.revision + 1, r)]);
              var decided := Decide(KindOf(z), s, Call(id, q, at, freshId));
              && (decided.Commit? <==>
                    && InTurn(s, id, storeRevision, at) && |s.operations| < MAX_OPERATIONS && |s.items| < MAX_RUNS
                    && (forall i :: 0 <= i < |s.items| ==> s.items[i].id != newId)
                    && (forall i :: 0 <= i < |s.items| ==> !(s.items[i].planId == origin.planId && s.items[i].planDigest == origin.planDigest))
                    && z.runFits(r) && z.storeFits(after))
              && (decided.Commit? ==> decided == Commit(after, Answer(s.revision + 1, r)))
  {
    hide ValidStore, CreateRun, ValidRun, NextItems, FindItem, FindOperation, Perform;
    var newId := if origin.id == "" then freshId else origin.id;
    var c := Call(id, NewRun(storeRevision, origin), at, freshId);
    Unknown(s, id);
    ChronologicalLog(KindOf(z), s, at);
    if CreateRun(origin.(id := newId, at := at)).Ok? {
      var r := CreateRun(origin.(id := newId, at := at)).value;
      CreatedBinding(origin.(id := newId, at := at), r);
      if Produce(s, c, z).Ok? {
        AcceptedIsStored(s, c, z);
        Added(RunId, s.items, r);
      }
    }
  }

  lemma CreatedBinding(o: Origin, r: Run)
    requires CreateRun(o) == Ok(r)
    ensures r.id == o.id && r.planId == o.planId && r.planDigest == o.planDigest
  {
    hide ValidRun;
  }
}
