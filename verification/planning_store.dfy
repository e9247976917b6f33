/** The store of Planning Runs: current runs, the log of operations that produced them, and the
    capacity the store reserves for the run in progress. */
module PlanningStore {
  import opened Wrappers
  import opened JsonBytes
  import opened DeliveryPlans
  import opened PlanningRuns
  import opened PlanningSteps
  import History = PlanningHistory

  const MAX_RUNS := 64
  const MAX_OPERATIONS := 1024
  const MAX_STORE_BYTES := 32 * 1024 * 1024
  const MAX_RUN_BYTES := 256 * 1024
  const MAX_ACTIVE_RUNS := 1
  const FOOTPRINT := 37 + 24 + 12 + 4
  const RUN_SLOT := 320 * 1024
  const OPERATION_SLOT := 384 * 1024

  /** What a caller asked for; its digest is the request itself. */
  datatype Request =
    | CreateRequest(storeRevision: int, runId: string, plan: Plan)
    | StepRequest(storeRevision: int, runRevision: int, runId: string, step: Step)

  datatype Operation = Operation(id: string, request: Request, at: int, storeRevision: int, run: Run)
  datatype Store = Store(revision: int, runs: seq<Run>, operations: seq<Operation>)

  const EMPTY_STORE := Store(0, [], [])

  /** Bytes of the JSON text of a run on its own, and of a run and an operation as array elements. */
  datatype Sizes = Sizes(alone: Run -> nat, run: Run -> nat, operation: Operation -> nat)

  // ---------------------------------------------------------------- the log

  predicate RunIsTerminal(r: Run) {
    r.condition == RunCanceled || Terminal(r)
  }

  /** The last snapshot of a run in the log. */
  function LatestRun(ops: seq<Operation>, id: string): Option<Run> {
    if ops == [] then None
    else if ops[|ops| - 1].run.id == id then Some(ops[|ops| - 1].run)
    else LatestRun(ops[..|ops| - 1], id)
  }

  function CountOps(ops: seq<Operation>, id: string): nat {
    if ops == [] then 0
    else CountOps(ops[..|ops| - 1], id) + if ops[|ops| - 1].run.id == id then 1 else 0
  }

  /** The role's attempt is still there with the same lease, pane, stop request and worker scope. */
  predicate LeaseFollows(before: RoleRecord, after: RoleRecord) {
    before.attempts != [] ==>
      var a := before.attempts[|before.attempts| - 1];
      exists i :: 0 <= i < |after.attempts| && after.attempts[i].id == a.id
        && after.attempts[i].lease.binding == a.lease.binding && after.attempts[i].lease.claimedAt == a.lease.claimedAt
        && History.Kept(a.lease.observed.bound, after.attempts[i].lease.observed.bound)
        && History.StopSince(a.lease.stop, after.attempts[i].lease.stop)
        && SameScope(a.dispatch, after.attempts[i].dispatch)
  }

  predicate SameScope(before: Option<Dispatch>, after: Option<Dispatch>) {
    before.Some? ==>
      && after.Some? && after.value.worker.scopeUnit == before.value.worker.scopeUnit
      && after.value.worker.scopeDigest == before.value.worker.scopeDigest
  }

  /** What a later snapshot of a run must keep of the one before. */
  predicate Follows(before: Run, after: Run) {
    && after.revision == before.revision + 1 && after.createdAt == before.createdAt
    && BindingOf(after) == BindingOf(before) && after.sourcePlan == before.sourcePlan
    && !RunIsTerminal(before)
    && LeaseFollows(before.roles.po, after.roles.po) && LeaseFollows(before.roles.ba, after.roles.ba)
    && LeaseFollows(before.roles.qa, after.roles.qa) && LeaseFollows(before.roles.dev, after.roles.dev)
  }

  predicate RunFits(r: Run, z: Sizes) {
    z.alone(r) <= MAX_RUN_BYTES
  }

  /** The operation may come at this place in the log. */
  predicate OperationFollows(op: Operation, before: seq<Operation>, z: Sizes) {
    && op.id != "" && op.storeRevision == |before| + 1
    && ValidRun(op.run) && RunFits(op.run, z) && OperationSlotBytes(op, z) <= OPERATION_SLOT
    && (if op.request.CreateRequest? then LatestRun(before, op.run.id).None? && op.run.revision == 1
        else LatestRun(before, op.run.id).Some? && Follows(LatestRun(before, op.run.id).value, op.run))
  }

  predicate ValidLog(ops: seq<Operation>, z: Sizes) {
    && (forall i :: 0 <= i < |ops| ==> OperationFollows(ops[i], ops[..i], z))
    && (forall i, j :: 0 <= i < j < |ops| ==> ops[i].id != ops[j].id && ops[i].at <= ops[j].at)
  }

  // ---------------------------------------------------------------- bytes

  /** An array at depth one of JSON text indented by two; `items` holds each element with indent, comma and newline. */
  function ArrayBytes(n: nat, items: nat): nat {
    if n == 0 then 2 else 4 + items
  }

  function RunItems(runs: seq<Run>, z: Sizes): nat {
    if runs == [] then 0 else RunItems(runs[..|runs| - 1], z) + 6 + z.run(runs[|runs| - 1])
  }

  function OperationItems(ops: seq<Operation>, z: Sizes): nat {
    if ops == [] then 0 else OperationItems(ops[..|ops| - 1], z) + 6 + z.operation(ops[|ops| - 1])
  }

  /** `{ "version": 1, "revision": ..., "runs": [...], "operations": [...] }` */
  function StoreBytes(s: Store, z: Sizes): nat {
    2 + 16 + (16 + IntBytes(s.revision)) + (10 + ArrayBytes(|s.runs|, RunItems(s.runs, z)) + 2)
    + (16 + ArrayBytes(|s.operations|, OperationItems(s.operations, z)) + 1) + 2
  }

  /** `{ "runs": [run] }` */
  function RunSlotBytes(r: Run, z: Sizes): nat {
    2 + (10 + ArrayBytes(1, 6 + z.run(r)) + 1) + 2
  }

  /** `{ "operations": [operation] }` */
  function OperationSlotBytes(op: Operation, z: Sizes): nat {
    2 + (16 + ArrayBytes(1, 6 + z.operation(op)) + 1) + 2
  }

  // ---------------------------------------------------------------- reservation

  /** Operations reserved for a run beyond those it has made. */
  function RunOperations(r: Run, ops: seq<Operation>): int {
    if RunIsTerminal(r) then 0 else FOOTPRINT - CountOps(ops, r.id)
  }

  function RunBytes(r: Run, ops: seq<Operation>, z: Sizes): int {
    if RunIsTerminal(r) then 0 else RUN_SLOT - RunSlotBytes(r, z) + RunOperations(r, ops) * OPERATION_SLOT
  }

  function OperationHeadroom(runs: seq<Run>, ops: seq<Operation>): int {
    if runs == [] then 0 else OperationHeadroom(runs[..|runs| - 1], ops) + RunOperations(runs[|runs| - 1], ops)
  }

  function ByteHeadroom(runs: seq<Run>, ops: seq<Operation>, z: Sizes): int {
    if runs == [] then 0 else ByteHeadroom(runs[..|runs| - 1], ops, z) + RunBytes(runs[|runs| - 1], ops, z)
  }

  function ActiveCount(runs: seq<Run>): nat {
    if runs == [] then 0 else ActiveCount(runs[..|runs| - 1]) + if RunIsTerminal(runs[|runs| - 1]) then 0 else 1
  }

  predicate Reservable(s: Store) {
    && ActiveCount(s.runs) <= MAX_ACTIVE_RUNS
    && forall i :: 0 <= i < |s.runs| && !RunIsTerminal(s.runs[i]) ==> CountOps(s.operations, s.runs[i].id) <= FOOTPRINT
  }

  predicate WithinCapacity(s: Store, z: Sizes) {
    && |s.operations| + OperationHeadroom(s.runs, s.operations) <= MAX_OPERATIONS
    && StoreBytes(s, z) <= MAX_STORE_BYTES
    && StoreBytes(s, z) + ByteHeadroom(s.runs, s.operations, z) <= MAX_STORE_BYTES
  }

  // ---------------------------------------------------------------- valid stores

  predicate DistinctRuns(runs: seq<Run>) {
    && (forall i, j :: 0 <= i < j < |runs| ==> runs[i].id != runs[j].id)
    && (forall i, j :: 0 <= i < j < |runs| && !RunIsTerminal(runs[i]) && !RunIsTerminal(runs[j]) ==> !SamePlan(runs[i], runs[j]))
  }

  predicate SamePlan(a: Run, b: Run) {
    a.planId == b.planId && a.planRevision == b.planRevision && a.planDigest == b.planDigest
  }

  predicate CurrentRun(r: Run, ops: seq<Operation>, z: Sizes) {
    ValidRun(r) && RunFits(r, z) && RunSlotBytes(r, z) <= RUN_SLOT && LatestRun(ops, r.id) == Some(r)
  }

  predicate HasRun(runs: seq<Run>, id: string) {
    exists k :: 0 <= k < |runs| && runs[k].id == id
  }

  /** Every run of the log is current in its last snapshot, and nothing else is. */
  predicate RunsAreLatest(runs: seq<Run>, ops: seq<Operation>, z: Sizes) {
    && (forall i :: 0 <= i < |runs| ==> CurrentRun(runs[i], ops, z))
    && (forall i :: 0 <= i < |ops| ==> HasRun(runs, ops[i].run.id))
  }

  predicate ValidStore(s: Store, z: Sizes) {
    && s.revision == |s.operations| <= MAX_OPERATIONS && |s.runs| <= MAX_RUNS
    && DistinctRuns(s.runs) && ValidLog(s.operations, z) && RunsAreLatest(s.runs, s.operations, z)
    && Reservable(s) && WithinCapacity(s, z)
  }
}
