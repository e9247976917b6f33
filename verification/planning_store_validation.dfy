/** The validator of the run store: one pass over the runs, one over the log, then the reservation. */
module PlanningStoreValidation {
  import opened Errors
  import opened Wrappers
  import opened DeliveryPlans
  import opened PlanningRuns
  import opened PlanningStore
  import opened Sets
  import opened LoggedStoreValidation
  import LoggedStores

  /** The outcome of a check: it passes, or fails with the error that is thrown. */
  datatype Check = Pass | Fail(code: Error)

  /** `previous` maps each run of the log to its last snapshot. */
  ghost predicate Tracks(previous: map<string, Run>, ops: seq<Operation>) {
    forall id :: (id in previous <==> LatestRun(ops, id).Some?) && (id in previous ==> LatestRun(ops, id) == Some(previous[id]))
  }

  lemma TracksNext(previous: map<string, Run>, ops: seq<Operation>, i: nat)
    requires i < |ops| && Tracks(previous, ops[..i])
    ensures Tracks(previous[ops[i].run.id := ops[i].run], ops[..i + 1])
  {
    assert ops[..i + 1][..i] == ops[..i];
  }

  function RunId(r: Run): string {
    r.id
  }

  /** The runs are valid, fit their slots and have different ids. */
  method CheckRuns(runs: seq<Run>, z: Sizes) returns (check: Check, runIds: set<string>)
    ensures check.Pass? <==>
            && (forall i :: 0 <= i < |runs| ==> ValidRun(runs[i]) && RunFits(runs[i], z) && RunSlotBytes(runs[i], z) <= RUN_SLOT)
            && (forall i, j :: 0 <= i < j < |runs| ==> runs[i].id != runs[j].id)
    ensures check.Pass? ==> Collects(RunId, runs, runIds) && |runIds| == |runs|
  {
    hide ValidRun, RunFits, RunSlotBytes, Collects, LoggedStores.HasItem;
    check, runIds := Pass, {};
    CollectsNothing(RunId);
    for i := 0 to |runs|
      invariant check.Pass?
      invariant forall j :: 0 <= j < i ==> ValidRun(runs[j]) && RunFits(runs[j], z) && RunSlotBytes(runs[j], z) <= RUN_SLOT
      invariant forall j, k :: 0 <= j < k < i ==> runs[j].id != runs[k].id
      invariant Collects(RunId, runs[..i], runIds) && |runIds| == i
    {
      var run := runs[i];
      if !ValidRun(run) {
        return Fail(PlanningStoreRunInvalid), {};
      }
      if !RunFits(run, z) {
        return Fail(PlanningStoreRunTooLarge), {};
      }
      if RunSlotBytes(run, z) > RUN_SLOT {
        return Fail(PlanningStoreCurrentRunTooLarge), {};
      }
      Repeated(RunId, runs, i);
      CollectsMember(RunId, runs[..i], runIds, RunId(run));
      if run.id in runIds {
        return Fail(PlanningStoreRunDuplicate), {};
      }
      CollectsNext(RunId, runs, i, runIds);
      runIds := runIds + {run.id};
    }
    assert runs[..|runs|] == runs;
  }

  /** No two runs in progress are bound to the same plan. */
  method CheckBindings(runs: seq<Run>) returns (check: Check)
    ensures check.Pass? <==> forall i, j :: 0 <= i < j < |runs| && !RunIsTerminal(runs[i]) && !RunIsTerminal(runs[j]) ==> !SamePlan(runs[i], runs[j])
  {
    hide RunIsTerminal;
    check := Pass;
    var bindings: set<(string, int, Definition)> := {};
    for i := 0 to |runs|
      invariant check.Pass?
      invariant bindings == (set j | 0 <= j < i && !RunIsTerminal(runs[j]) :: (runs[j].planId, runs[j].planRevision, runs[j].planDigest))
      invariant forall j, k :: 0 <= j < k < i && !RunIsTerminal(runs[j]) && !RunIsTerminal(runs[k]) ==> !SamePlan(runs[j], runs[k])
    {
      var run := runs[i];
      if !RunIsTerminal(run) {
        if (run.planId, run.planRevision, run.planDigest) in bindings {
          var j :| 0 <= j < i && !RunIsTerminal(runs[j])
            && (runs[j].planId, runs[j].planRevision, runs[j].planDigest) == (run.planId, run.planRevision, run.planDigest);
          assert SamePlan(runs[j], runs[i]);
          return Fail(PlanningStorePlanBindingDuplicate);
        }
        bindings := bindings + {(run.planId, run.planRevision, run.planDigest)};
      }
    }
  }

  /** The log, read once from its start, with the last snapshot of every run remembered. */
  method CheckLog(ops: seq<Operation>, runIds: set<string>, z: Sizes) returns (check: Check, previous: map<string, Run>)
    ensures check.Pass? <==> ValidLog(ops, z) && forall i :: 0 <= i < |ops| ==> ops[i].run.id in runIds
    ensures check.Pass? ==> Tracks(previous, ops) && previous.Keys <= runIds
  {
    hide OperationFollows, ValidRun, LatestRun;
    check, previous := Pass, map[];
    var operationIds: set<string> := {};
    NothingTracked();
    for i := 0 to |ops|
      invariant check.Pass? && Tracks(previous, ops[..i]) && previous.Keys <= runIds
      invariant operationIds == set j | 0 <= j < i :: ops[j].id
      invariant forall j :: 0 <= j < i ==> OperationFollows(ops[j], ops[..j], z) && ops[j].run.id in runIds
      invariant forall j, k :: 0 <= j < k < i ==> ops[j].id != ops[k].id && ops[j].at <= ops[k].at
    {
      var op := ops[i];
      if op.id in operationIds {
        return Fail(PlanningStoreOperationDuplicate), map[];
      }
      check := CheckOperation(op, i, ops[..i], previous, runIds, z);
      if check.Fail? {
        return check, map[];
      }
      if i > 0 && op.at < ops[i - 1].at {
        return Fail(PlanningStoreOperationChronologyInvalid), map[];
      }
      TracksNext(previous, ops, i);
      operationIds := operationIds + {op.id};
      previous := previous[op.run.id := op.run];
    }
    assert ops[..|ops|] == ops;
  }

  lemma NothingTracked()
    ensures Tracks(map[], [])
  {
  }

  method CheckOperation(op: Operation, index: nat, ghost before: seq<Operation>, previous: map<string, Run>, runIds: set<string>, z: Sizes)
    returns (check: Check)
    requires Tracks(previous, before) && |before| == index
    ensures check.Pass? <==> OperationFollows(op, before, z) && op.run.id in runIds
  {
    hide ValidRun, Follows, RunFits, OperationSlotBytes;
    if op.id == "" {
      return Fail(PlanningStoreOperationInvalid);
    }
    if op.storeRevision != index + 1 {
      return Fail(PlanningStoreOperationRevisionInvalid);
    }
    if !ValidRun(op.run) || !RunFits(op.run, z) {
      return Fail(PlanningStoreOperationRunInvalid);
    }
    if OperationSlotBytes(op, z) > OPERATION_SLOT {
      return Fail(PlanningStoreOperationTooLarge);
    }
    if op.run.id !in runIds {
      return Fail(PlanningStoreOperationRunUnknown);
    }
    if op.request.CreateRequest? {
      if op.run.id in previous || op.run.revision != 1 {
        return Fail(PlanningStoreOperationLifecycleInvalid);
      }
    } else if op.run.id !in previous || !Follows(previous[op.run.id], op.run) {
      return Fail(PlanningStoreOperationLifecycleInvalid);
    }
    return Pass;
  }

  /** Slots and bytes reserved for the runs in progress. */
  method ActiveReservation(s: Store, z: Sizes) returns (check: Check, operationHeadroom: int, byteHeadroom: int)
    ensures check.Pass? <==> Reservable(s)
    ensures check.Pass? ==> operationHeadroom == OperationHeadroom(s.runs, s.operations) && byteHeadroom == ByteHeadroom(s.runs, s.operations, z)
  {
    hide RunIsTerminal, CountOps, RunSlotBytes;
    check, operationHeadroom, byteHeadroom := Pass, 0, 0;
    if ActiveCount(s.runs) > MAX_ACTIVE_RUNS {
      return Fail(PlanningStoreActiveRunLimitReached), 0, 0;
    }
    for i := 0 to |s.runs|
      invariant check.Pass?
      invariant forall j :: 0 <= j < i && !RunIsTerminal(s.runs[j]) ==> CountOps(s.operations, s.runs[j].id) <= FOOTPRINT
      invariant operationHeadroom == OperationHeadroom(s.runs[..i], s.operations)
      invariant byteHeadroom == ByteHeadroom(s.runs[..i], s.operations, z)
    {
      var run := s.runs[i];
      assert s.runs[..i + 1][..i] == s.runs[..i];
      if !RunIsTerminal(run) {
        var consumed := CountOps(s.operations, run.id);
        if consumed > FOOTPRINT {
          return Fail(PlanningStoreActiveOperationBudgetExceeded), 0, 0;
        }
        var remaining := FOOTPRINT - consumed;
        operationHeadroom := operationHeadroom + remaining;
        byteHeadroom := byteHeadroom + (RUN_SLOT - RunSlotBytes(run, z)) + remaining * OPERATION_SLOT;
      }
    }
    assert s.runs[..|s.runs|] == s.runs;
  }

  lemma HistoryComplete(s: Store, previous: map<string, Run>, runIds: set<string>)
    requires Tracks(previous, s.operations) && previous.Keys <= runIds
    requires Collects(RunId, s.runs, runIds) && |runIds| == |s.runs|
    ensures (forall i :: 0 <= i < |s.runs| ==> LatestRun(s.operations, s.runs[i].id).Some?) <==> |previous| == |s.runs|
  {
    hide LatestRun;
    assert |previous.Keys| == |previous|;
    if forall i :: 0 <= i < |s.runs| ==> LatestRun(s.operations, s.runs[i].id).Some? {
      assert runIds == previous.Keys;
    }
    if |previous| == |s.runs| {
      SubsetSize(previous.Keys, runIds);
    }
  }

  /** Every current run is the last snapshot the log has of it. */
  method CheckCurrent(s: Store, previous: map<string, Run>, runIds: set<string>) returns (check: Check)
    requires Tracks(previous, s.operations) && previous.Keys <= runIds
    requires Collects(RunId, s.runs, runIds) && |runIds| == |s.runs|
    ensures check.Pass? <==> forall i :: 0 <= i < |s.runs| ==> LatestRun(s.operations, s.runs[i].id) == Some(s.runs[i])
  {
    hide LatestRun;
    if |previous| != |s.runs| {
      HistoryComplete(s, previous, runIds);
      return Fail(PlanningStoreHistoryIncomplete);
    }
    SubsetSize(previous.Keys, runIds);
    check := Pass;
    for i := 0 to |s.runs|
      invariant check.Pass?
      invariant forall j :: 0 <= j < i ==> LatestRun(s.operations, s.runs[j].id) == Some(s.runs[j])
    {
      assert s.runs[i].id in runIds;
      if previous[s.runs[i].id] != s.runs[i] {
        return Fail(PlanningStoreCurrentRunMismatch);
      }
    }
  }

  lemma KnownRun(runs: seq<Run>, runIds: set<string>, id: string)
    requires Collects(RunId, runs, runIds)
    ensures id in runIds <==> HasRun(runs, id)
  {
    if HasRun(runs, id) {
      var k :| 0 <= k < |runs| && runs[k].id == id;
      assert RunId(runs[k]) == id;
    }
  }

  /** The validator accepts exactly the valid stores. */
  method ValidateStore(s: Store, z: Sizes) returns (check: Check)
    ensures check.Pass? <==> ValidStore(s, z)
  {
    hide ValidLog, Reservable, RunIsTerminal, OperationHeadroom, ByteHeadroom, StoreBytes, LatestRun, SamePlan, ValidRun, RunFits, RunSlotBytes, Collects, HasRun;
    if s.revision < 0 || |s.runs| > MAX_RUNS || |s.operations| > MAX_OPERATIONS || s.revision != |s.operations| {
      return Fail(PlanningStoreShapeInvalid);
    }
    var runIds, previous, operationHeadroom, byteHeadroom;
    check, runIds := CheckRuns(s.runs, z);
    if check.Fail? {
      return;
    }
    check := CheckBindings(s.runs);
    if check.Fail? {
      return;
    }
    check, previous := CheckLog(s.operations, runIds, z);
    forall i | 0 <= i < |s.operations| ensures s.operations[i].run.id in runIds <==> HasRun(s.runs, s.operations[i].run.id) {
      KnownRun(s.runs, runIds, s.operations[i].run.id);
    }
    if check.Fail? {
      return;
    }
    check := CheckCurrent(s, previous, runIds);
    if check.Fail? {
      return;
    }
    check, operationHeadroom, byteHeadroom := ActiveReservation(s, z);
    if check.Fail? {
      return;
    }
    if |s.operations| + operationHeadroom > MAX_OPERATIONS {
      return Fail(PlanningStoreOperationReservationUnavailable);
    }
    var persistedBytes := StoreBytes(s, z);
    if persistedBytes > MAX_STORE_BYTES {
      return Fail(PlanningStoreTooLarge);
    }
    if persistedBytes + byteHeadroom > MAX_STORE_BYTES {
      return Fail(PlanningStoreByteReservationUnavailable);
    }
    return Pass;
  }
}
