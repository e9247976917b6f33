/** Exactly which requests the Planning Run store takes, and what it then holds. */
module PlanningDecisions {
  import opened Errors
  import opened Wrappers
  import opened DeliveryPlans
  import opened PlanningRuns
  import opened PlanningSteps
  import opened PlanningStore
  import opened PlanningAdmission

  /** No operation with this id is in the log. */
  predicate Unlogged(s: Store, id: string) {
    forall i :: 0 <= i < |s.operations| ==> s.operations[i].id != id
  }

  /** A new operation, asked of the store as it is, and not before anything that is logged. */
  predicate InTurn(s: Store, id: string, storeRevision: int, at: int) {
    id != "" && storeRevision == s.revision && forall i :: 0 <= i < |s.operations| ==> s.operations[i].at <= at
  }

  lemma ChronologicalLog(s: Store, z: Sizes, at: int)
    requires ValidStore(s, z)
    ensures Chronological(s.operations, at) <==> forall i :: 0 <= i < |s.operations| ==> s.operations[i].at <= at
  {
    hide OperationFollows, RunsAreLatest, DistinctRuns, Reservable, WithinCapacity;
  }

  lemma Unknown(s: Store, id: string)
    ensures Unlogged(s, id) <==> FindOperation(s.operations, id).None?
  {
    FoundOperation(s.operations, id);
  }

  /** A stored operation has an id, and it and its run fit their slots. */
  lemma LoggedFits(s: Store, z: Sizes, k: nat, op: Operation, before: seq<Operation>)
    requires ValidStore(s, z) && s.operations == before + [op] && At(s.runs, k, op.run)
    ensures ItemsFit(op, z) && op.id != ""
  {
    hide ValidRun, DistinctRuns, Reservable, WithinCapacity, LatestRun, Follows;
    assert s.operations[..|before|] == before && s.operations[|before|] == op;
    assert OperationFollows(s.operations[|before|], s.operations[..|before|], z);
    assert CurrentRun(s.runs[k], s.operations, z);
  }

  // ---------------------------------------------------------------- steps

  /** A new operation on a run of the store is stored exactly when it was asked of the store and the run at
      their present revisions, not before what is logged, the run accepts the step, and the result fits its
      slots. Then this run is replaced, the operation logged, and nothing else changed. */
  lemma StepStored(s: Store, id: string, storeRevision: int, runRevision: int, asked: Step, env: Env, z: Sizes, k: nat, p: Run)
    requires Healthy(s, z) && Unlogged(s, id) && At(s.runs, k, p)
    ensures var c, step := StepCall(id, storeRevision, runRevision, p.id, asked), Addressed(asked, id, storeRevision, runRevision);
            match Perform(p, step, env.at)
            case Err(_) => !Decide(s, c, env, z).Commit?
            case Ok(run) =>
              var op := Operation(id, RequestOf(c), env.at, s.revision + 1, run);
              && (Decide(s, c, env, z).Commit? <==>
                    InTurn(s, id, storeRevision, env.at) && p.revision == runRevision && ItemsFit(op, z))
              && (Decide(s, c, env, z).Commit? ==>
                    Decide(s, c, env, z) == Commit(Store(s.revision + 1, s.runs[k := run], s.operations + [op])))
  {
    hide ValidStore, Lawful, Perform, ItemsFit, NextRuns, CreateRun, LawfulOperation, Addressed, RequestOf;
    var c, step := StepCall(id, storeRevision, runRevision, p.id, asked), Addressed(asked, id, storeRevision, runRevision);
    Unknown(s, id);
    ChronologicalLog(s, z, env.at);
    OnlyRun(s, z, k, p);
    if Perform(p, step, env.at).Ok? {
      StepTaken(s, c, runRevision, asked, step, env, z, k, p, Perform(p, step, env.at).value);
    }
  }

  lemma OnlyRun(s: Store, z: Sizes, k: nat, p: Run)
    requires ValidStore(s, z) && At(s.runs, k, p)
    ensures FindRun(s.runs, p.id) == Some(p) && DistinctIds(s.runs)
  {
    hide ValidStore;
    IdsDistinct(s, z);
    var j := FoundRun(s.runs, p.id);
  }

  lemma StepTaken(s: Store, c: Call, runRevision: int, asked: Step, step: Step, env: Env, z: Sizes, k: int, p: Run, run: Run)
    requires c == StepCall(c.operationId, c.storeRevision, runRevision, c.runId, asked)
    requires Healthy(s, z) && StepOf(c) == Some(step) && FindOperation(s.operations, c.operationId).None?
    requires At(s.runs, k, p) && p.id == c.runId && FindRun(s.runs, p.id) == Some(p) && DistinctIds(s.runs) && Perform(p, step, env.at) == Ok(run)
    ensures var op := Operation(c.operationId, RequestOf(c), env.at, s.revision + 1, run);
            && (Decide(s, c, env, z).Commit? <==>
                  && c.operationId != "" && c.storeRevision == s.revision && Chronological(s.operations, env.at)
                  && p.revision == runRevision && ItemsFit(op, z))
            && (Decide(s, c, env, z).Commit? ==>
                  Decide(s, c, env, z) == Commit(NextStore(s, c.operationId, RequestOf(c), env.at, run)))
            && NextRuns(s.runs, run) == s.runs[k := run]
  {
    hide ValidStore, Lawful, Perform, ItemsFit, NextRuns, CreateRun, LawfulOperation, Addressed, RequestOf;
    var op := Operation(c.operationId, RequestOf(c), env.at, s.revision + 1, run);
    SameRun(p, step, env.at, run);
    ReplacedRuns(s.runs, k, run);
    if Decide(s, c, env, z).Commit? {
      var next := NextStore(s, c.operationId, RequestOf(c), env.at, run);
      assert ValidStore(next, z);
      LoggedFits(next, z, k, op, s.operations);
    }
    if c.operationId != "" && c.storeRevision == s.revision && Chronological(s.operations, env.at) && p.revision == runRevision && ItemsFit(op, z) {
      StepAdmitted(s, c, env, z, step, p, run);
    }
  }

  lemma SameRun(p: Run, step: Step, at: int, run: Run)
    requires Perform(p, step, at) == Ok(run)
    ensures run.id == p.id
  {
    hide ValidRun, Mutated;
    MutatedIdentity(p, step, at, Mutated(p, step, at).value);
  }

  /** A step on a run the store does not have is never stored. */
  lemma StepNotFound(s: Store, c: Call, env: Env, z: Sizes)
    requires c.StepCall? && OtherRuns(s.runs, c.runId)
    ensures !Decide(s, c, env, z).Commit?
  {
    hide ValidStore, Perform, NextRuns, CreateRun, Addressed, RequestOf;
    var _ := FoundRun(s.runs, c.runId);
  }

  // ---------------------------------------------------------------- creations

  /** No run is active, and there is room for all the new one may ever take: one slot of 320 KiB and 77
      operations of 384 KiB. */
  predicate Reserved(s: Store, z: Sizes) {
    && (forall i :: 0 <= i < |s.runs| ==> s.runs[i].phase in {PhaseApplied, PhaseClosed})
    && |s.runs| < MAX_RUNS && |s.operations| + 77 <= MAX_OPERATIONS
    && StoreBytes(s, z) + RUN_SLOT + 77 * OPERATION_SLOT <= MAX_STORE_BYTES
  }

  lemma {:induction false} CountsActive(runs: seq<Run>)
    ensures ActiveCount(runs) < 1 <==> forall i :: 0 <= i < |runs| ==> RunIsTerminal(runs[i])
  {
    hide RunIsTerminal;
    if runs != [] {
      CountsActive(runs[..|runs| - 1]);
    }
  }

  /** With no active run there is none on the same plan either. */
  lemma RoomMeans(s: Store, z: Sizes, run: Run)
    requires ValidStore(s, z)
    ensures Reserved(s, z) <==> RoomToCreate(s, z)
    ensures Reserved(s, z) ==> !SomeSamePlan(s.runs, run)
  {
    hide ValidLog, DistinctRuns, Reservable, WithinCapacity, LatestRun, StoreBytes, ActiveCount, SamePlan, RunIsTerminal;
    CountsActive(s.runs);
    forall i | 0 <= i < |s.runs| ensures RunIsTerminal(s.runs[i]) <==> s.runs[i].phase in {PhaseApplied, PhaseClosed} {
      assert CurrentRun(s.runs[i], s.operations, z);
      EndedPhases(s.runs[i]);
    }
  }

  lemma EndedPhases(r: Run)
    requires ValidRun(r)
    ensures RunIsTerminal(r) <==> r.phase in {PhaseApplied, PhaseClosed}
  {
    hide ValidSourcePlan, ValidRoles, ValidCandidate, ValidOutbox, ValidSynthesisBlocker, ValidReceipts;
  }

  /** A new run is stored exactly when it was asked for at the present revision of the store, not before what
      is logged, under an id no run has, on a plan it can be created on, while no run is active and all of its
      reservation is available, and it fits its slots. Then it is added, and its creation logged. */
  lemma CreateStored(s: Store, id: string, storeRevision: int, runId: string, plan: Plan, env: Env, z: Sizes)
    requires Healthy(s, z) && Unlogged(s, id)
    ensures var c, newId := CreateCall(id, storeRevision, runId, plan), if runId == "" then env.freshId else runId;
            match CreateRun(newId, plan, env.at)
            case Err(_) => !Decide(s, c, env, z).Commit?
            case Ok(run) =>
              var op := Operation(id, RequestOf(c), env.at, s.revision + 1, run);
              && (Decide(s, c, env, z).Commit? <==>
                    && InTurn(s, id, storeRevision, env.at) && OtherRuns(s.runs, newId) && Reserved(s, z) && ItemsFit(op, z))
              && (Decide(s, c, env, z).Commit? ==>
                    Decide(s, c, env, z) == Commit(Store(s.revision + 1, s.runs + [run], s.operations + [op])))
  {
    hide ValidStore, Lawful, CreateRun, ItemsFit, NextRuns, SomeSamePlan, Perform, RequestOf, Reserved, RoomToCreate;
    var c, newId := CreateCall(id, storeRevision, runId, plan), if runId == "" then env.freshId else runId;
    Unknown(s, id);
    ChronologicalLog(s, z, env.at);
    NotFound(s.runs, newId);
    if CreateRun(newId, plan, env.at).Ok? {
      var run := CreateRun(newId, plan, env.at).value;
      CreatedRun(newId, plan, env.at, run);
      RoomMeans(s, z, run);
      CreateTaken(s, c, plan, env, z, run);
    }
  }

  lemma NotFound(runs: seq<Run>, id: string)
    ensures FindRun(runs, id).None? <==> OtherRuns(runs, id)
  {
    var k := FoundRun(runs, id);
  }

  lemma CreateTaken(s: Store, c: Call, plan: Plan, env: Env, z: Sizes, run: Run)
    requires c.CreateCall? && PlanOf(c) == Some(plan) && FindOperation(s.operations, c.operationId).None?
    requires Healthy(s, z) && run.id == NewId(c, env) && CreateRun(run.id, plan, env.at) == Ok(run)
    ensures var op := Operation(c.operationId, RequestOf(c), env.at, s.revision + 1, run);
            && (Decide(s, c, env, z).Commit? <==>
                  && c.operationId != "" && c.storeRevision == s.revision && Chronological(s.operations, env.at)
                  && FindRun(s.runs, run.id).None? && !SomeSamePlan(s.runs, run) && RoomToCreate(s, z) && ItemsFit(op, z))
            && (Decide(s, c, env, z).Commit? ==>
                  Decide(s, c, env, z) == Commit(Store(s.revision + 1, s.runs + [run], s.operations + [op])))
  {
    hide ValidStore, Lawful, CreateRun, ItemsFit, NextRuns, SomeSamePlan, Perform, RequestOf, RoomToCreate;
    var op := Operation(c.operationId, RequestOf(c), env.at, s.revision + 1, run);
    NotFound(s.runs, run.id);
    if Decide(s, c, env, z).Commit? {
      var next := NextStore(s, c.operationId, RequestOf(c), env.at, run);
      assert ValidStore(next, z);
      RunAdded(s.runs, run);
      LoggedFits(next, z, |s.runs|, op, s.operations);
    }
    if c.operationId != "" && c.storeRevision == s.revision && Chronological(s.operations, env.at) && FindRun(s.runs, run.id).None?
       && !SomeSamePlan(s.runs, run) && ItemsFit(op, z) {
      CreateAdmitted(s, c, env, z, plan, run);
    }
  }

  lemma RunAdded(runs: seq<Run>, run: Run)
    requires OtherRuns(runs, run.id)
    ensures NextRuns(runs, run) == runs + [run]
  {
  }

  // ---------------------------------------------------------------- operations that are known

  /** A known operation changes nothing: it is answered as it was the first time, if the same is asked for. */
  lemma KnownAnswered(s: Store, c: Call, env: Env, z: Sizes, k: nat, op: Operation)
    requires ValidStore(s, z) && k < |s.operations| && s.operations[k] == op && op.id == c.operationId
    ensures Decide(s, c, env, z) == if op.request == RequestOf(c) then Replay(op.storeRevision, op.run) else Refuse(PlanningStoreOperationConflict)
  {
    hide OperationFollows, RunsAreLatest, DistinctRuns, Reservable, WithinCapacity, RequestOf, DecideCreate, DecideStep;
    FoundOperation(s.operations, c.operationId);
  }

  /** Two requests are the same when they ask for the same at the same revisions. What a report weighs is
      measured when it arrives, and a continuation names its own call. */
  lemma SameRequest(a: Call, b: Call)
    requires a.operationId == b.operationId && RequestOf(a) == RequestOf(b)
    ensures a.storeRevision == b.storeRevision && a.runId == b.runId && PlanOf(a) == PlanOf(b)
    ensures match (a, b)
            case (StepCall(_, _, m, _, x), StepCall(_, _, n, _, y)) => m == n && Sized(StepOf(a).value, true, true) == Sized(StepOf(b).value, true, true)
            case (CreateCall(_, _, _, _), CreateCall(_, _, _, _)) => true
            case _ => false
  {
  }

  /** The receipt of a continuation names the operation that was logged for it and the revisions it was asked at. */
  lemma ReceiptNamesCall(p: Run, asked: Step, id: string, storeRevision: int, runRevision: int, at: int, run: Run) returns (x: Receipt)
    requires asked.RetryResources? || asked.ContinueCleanup?
    requires Perform(p, Addressed(asked, id, storeRevision, runRevision), at) == Ok(run)
    ensures run.receipts == p.receipts + [x] && x.role == asked.role
    ensures x.operationId == id && x.requestedStoreRevision == storeRevision && x.requestedRunRevision == runRevision && x.authorizedAt == at
    ensures if asked.RetryResources? then x.kind == ResourceRetry
            else x.kind == CleanupOnly && x.attemptId == asked.attemptId && x.claimId == asked.claimId && x.recoveryOutcome == asked.outcome
  {
    hide ValidRun, LocalMutation, BlamingMutation, SpawnMutation, RecordReportStep, WaitMutation, CompileStep, ClaimApplyStep,
      AppliedStep, ReconcileApplyStep, AbandonStep, OffCourseStep, CancelStep, ReceiptAllowed, Eligible, ContinueCleanupRole;
    x := ReceiptOf(Addressed(asked, id, storeRevision, runRevision), at);
  }
}
