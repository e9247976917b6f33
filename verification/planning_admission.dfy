/** What the store does with a request, and why an admitted run is never refused for lack of room. */
module PlanningAdmission {
  import opened Errors
  import opened Wrappers
  import opened JsonBytes
  import opened DeliveryPlans
  import opened PlanningRuns
  import opened PlanningSteps
  import opened PlanningStore
  import Bound = PlanningBound
  import History = PlanningHistory
  import Safety = PlanningSafety

  datatype Call =
    | CreateCall(operationId: string, storeRevision: int, runId: string, plan: Plan)
    | StepCall(operationId: string, storeRevision: int, runRevision: int, runId: string, step: Step)

  /** What the environment supplies to one call. */
  datatype Env = Env(at: int, freshId: string)

  datatype Verdict = Replay(storeRevision: int, run: Run) | Commit(next: Store) | Refuse(code: Error)

  /** The two size facts of a report are observations, not part of what was asked. */
  function Sized(s: Step, envelopeFits: bool, candidateFits: bool): Step {
    if s.RecordReport? then s.(envelopeFits := envelopeFits, candidateFits := candidateFits) else s
  }

  /** A continuation takes its operation id and revisions from the call it arrived in. */
  function Addressed(step: Step, operationId: string, storeRevision: int, runRevision: int): Step {
    match step
    case RetryResources(_, role, _, _) => RetryResources(operationId, role, storeRevision, runRevision)
    case ContinueCleanup(_, role, attemptId, claimId, outcome, _, _) =>
      ContinueCleanup(operationId, role, attemptId, claimId, outcome, storeRevision, runRevision)
    case other => other
  }

  /** The step a call asks for, if it asks for one. */
  function StepOf(c: Call): Option<Step> {
    match c
    case StepCall(operationId, storeRevision, runRevision, _, step) => Some(Addressed(step, operationId, storeRevision, runRevision))
    case CreateCall(_, _, _, _) => None
  }

  /** The plan a call asks a run for, if it asks for a run. */
  function PlanOf(c: Call): Option<Plan> {
    match c
    case CreateCall(_, _, _, plan) => Some(plan)
    case StepCall(_, _, _, _, _) => None
  }

  function RequestOf(c: Call): Request {
    match c
    case CreateCall(_, storeRevision, runId, plan) => CreateRequest(storeRevision, runId, plan)
    case StepCall(operationId, storeRevision, runRevision, runId, step) =>
      StepRequest(storeRevision, runRevision, runId, Sized(Addressed(step, operationId, storeRevision, runRevision), true, true))
  }

  function FindOperation(ops: seq<Operation>, id: string): Option<Operation> {
    if ops == [] then None else if ops[0].id == id then Some(ops[0]) else FindOperation(ops[1..], id)
  }

  function FindRun(runs: seq<Run>, id: string): Option<Run> {
    if runs == [] then None else if runs[0].id == id then Some(runs[0]) else FindRun(runs[1..], id)
  }

  function NextRuns(runs: seq<Run>, run: Run): seq<Run> {
    if exists i :: 0 <= i < |runs| && runs[i].id == run.id
    then seq(|runs|, i requires 0 <= i < |runs| => if runs[i].id == run.id then run else runs[i])
    else runs + [run]
  }

  function NextStore(s: Store, operationId: string, request: Request, at: int, run: Run): Store {
    Store(s.revision + 1, NextRuns(s.runs, run), s.operations + [Operation(operationId, request, at, s.revision + 1, run)])
  }

  predicate Chronological(ops: seq<Operation>, at: int) {
    ops != [] ==> ops[|ops| - 1].at <= at
  }

  /** An active run carries out the same plan. */
  predicate SomeSamePlan(runs: seq<Run>, run: Run) {
    exists i :: 0 <= i < |runs| && !RunIsTerminal(runs[i]) && SamePlan(runs[i], run)
  }

  /** Room for the run that is about to be created, its whole reservation included. */
  predicate RoomToCreate(s: Store, z: Sizes) {
    && |s.operations| < MAX_OPERATIONS && |s.runs| < MAX_RUNS && ActiveCount(s.runs) < MAX_ACTIVE_RUNS
    && |s.operations| + FOOTPRINT <= MAX_OPERATIONS
    && StoreBytes(s, z) + RUN_SLOT + FOOTPRINT * OPERATION_SLOT <= MAX_STORE_BYTES
  }

  function Stored(next: Store, z: Sizes): Verdict {
    if ValidStore(next, z) then Commit(next) else Refuse(PlanningStoreInvalid)
  }

  function DecideCreate(s: Store, c: Call, id: string, plan: Plan, at: int, z: Sizes): Verdict {
    if s.revision != c.storeRevision then Refuse(PlanningStoreRevisionConflict)
    else if !Chronological(s.operations, at) then Refuse(PlanningStoreClockRegressed)
    else if FindRun(s.runs, id).Some? then Refuse(PlanningStoreRunDuplicate)
    else match CreateRun(id, plan, at)
         case Err(code) => Refuse(code)
         case Ok(run) =>
           if SomeSamePlan(s.runs, run) then Refuse(PlanningStorePlanBindingDuplicate)
           else if !RoomToCreate(s, z) then Refuse(PlanningStoreReservationUnavailable)
           else Stored(NextStore(s, c.operationId, RequestOf(c), at, run), z)
  }

  function DecideStep(s: Store, c: Call, runRevision: int, step: Step, at: int, z: Sizes): Verdict {
    if s.revision != c.storeRevision then Refuse(PlanningStoreRevisionConflict)
    else if |s.operations| >= MAX_OPERATIONS then Refuse(PlanningStoreOperationLimitReached)
    else match FindRun(s.runs, c.runId)
         case None => Refuse(PlanningStoreRunNotFound)
         case Some(current) =>
           if current.revision != runRevision then Refuse(PlanningStoreRunRevisionConflict)
           else if !Chronological(s.operations, at) then Refuse(PlanningStoreClockRegressed)
           else match Perform(current, step, at)
                case Err(code) => Refuse(code)
                case Ok(run) => Stored(NextStore(s, c.operationId, RequestOf(c), at, run), z)
  }

  /** The id a created run gets: the one asked for, or a fresh one. */
  function NewId(c: Call, env: Env): string {
    if c.runId != "" then c.runId else env.freshId
  }

  /** A request whose operation is in the log is answered from the log, or conflicts with it. */
  function Decide(s: Store, c: Call, env: Env, z: Sizes): Verdict {
    match FindOperation(s.operations, c.operationId)
    case Some(known) =>
      if known.request == RequestOf(c) then Replay(known.storeRevision, known.run) else Refuse(PlanningStoreOperationConflict)
    case None =>
      match c
      case CreateCall(_, _, _, plan) => DecideCreate(s, c, NewId(c, env), plan, env.at, z)
      case StepCall(operationId, storeRevision, runRevision, _, step) =>
        DecideStep(s, c, runRevision, Addressed(step, operationId, storeRevision, runRevision), env.at, z)
  }

  // ---------------------------------------------------------------- logs of accepted steps

  /** The operation is what creating its run, or one accepted step of it, produced. */
  predicate LawfulOperation(op: Operation, before: seq<Operation>) {
    match op.request
    case CreateRequest(_, _, plan) => LatestRun(before, op.run.id).None? && CreateRun(op.run.id, plan, op.at) == Ok(op.run)
    case StepRequest(_, _, _, step) =>
      match LatestRun(before, op.run.id)
      case None => false
      case Some(previous) => exists e: bool, c: bool :: Perform(previous, Sized(step, e, c), op.at) == Ok(op.run)
  }

  predicate Lawful(ops: seq<Operation>) {
    forall i :: 0 <= i < |ops| ==> LawfulOperation(ops[i], ops[..i])
  }

  /** A store the repository can hold: valid, with a log of accepted steps. */
  predicate Healthy(s: Store, z: Sizes) {
    ValidStore(s, z) && Lawful(s.operations)
  }

  lemma {:induction false} LatestHasOps(ops: seq<Operation>, id: string)
    ensures LatestRun(ops, id).Some? <==> CountOps(ops, id) > 0
    ensures LatestRun(ops, id).Some? ==> LatestRun(ops, id).value.id == id
  {
    if ops != [] {
      LatestHasOps(ops[..|ops| - 1], id);
    }
  }

  lemma LawfulPrefix(before: seq<Operation>, op: Operation)
    requires Lawful(before + [op])
    ensures Lawful(before) && LawfulOperation(op, before)
  {
    hide LawfulOperation;
    var ops := before + [op];
    forall i | 0 <= i < |before| ensures LawfulOperation(before[i], before[..i]) {
      assert before[..i] == ops[..i];
    }
    assert before == ops[..|before|];
  }

  /** Each run of a lawful log was reached by exactly the operations the log holds for it. */
  lemma {:induction false} LogReaches(ops: seq<Operation>, id: string, r: Run) returns (o: Origin, events: seq<Event>)
    requires Lawful(ops) && LatestRun(ops, id) == Some(r)
    ensures Reaches(o, events, r) && CountOps(ops, id) == 1 + |events|
  {
    hide Reaches, LawfulOperation, Perform, CreateRun;
    var init, op := ops[..|ops| - 1], ops[|ops| - 1];
    assert ops == init + [op];
    LawfulPrefix(init, op);
    if op.run.id != id {
      o, events := LogReaches(init, id, r);
    } else if op.request.CreateRequest? {
      o, events := CreatedReaches(op, init);
      LatestHasOps(init, id);
    } else {
      var p, e := LawfulStep(op, init);
      o, events := LogReaches(init, id, p);
      Extended(o, events, p, e, op.run);
      events := events + [e];
    }
  }

  lemma CreatedReaches(op: Operation, before: seq<Operation>) returns (o: Origin, events: seq<Event>)
    requires op.request.CreateRequest? && LawfulOperation(op, before)
    ensures Reaches(o, events, op.run) && events == [] && LatestRun(before, op.run.id).None?
  {
    hide CreateRun, Perform;
    o, events := Origin(op.run.id, op.request.plan, op.at), [];
  }

  lemma LawfulStep(op: Operation, before: seq<Operation>) returns (p: Run, e: Event)
    requires op.request.StepRequest? && LawfulOperation(op, before)
    ensures LatestRun(before, op.run.id) == Some(p) && Perform(p, e.step, e.at) == Ok(op.run)
  {
    hide Perform, CreateRun;
    p := LatestRun(before, op.run.id).value;
    var envelope, candidate :| Perform(p, Sized(op.request.step, envelope, candidate), op.at) == Ok(op.run);
    e := Event(Sized(op.request.step, envelope, candidate), op.at);
  }

  lemma Extended(o: Origin, events: seq<Event>, r: Run, e: Event, next: Run)
    requires Reaches(o, events, r) && Perform(r, e.step, e.at) == Ok(next)
    ensures Reaches(o, events + [e], next)
  {
    hide Perform, CreateRun;
    assert (events + [e])[..|events|] == events;
  }

  // ---------------------------------------------------------------- lookups

  lemma {:induction false} FoundOperation(ops: seq<Operation>, id: string)
    ensures FindOperation(ops, id).None? <==> forall i :: 0 <= i < |ops| ==> ops[i].id != id
    ensures FindOperation(ops, id).Some? ==> exists i :: 0 <= i < |ops| && ops[i] == FindOperation(ops, id).value && ops[i].id == id
  {
    if ops != [] && ops[0].id != id {
      FoundOperation(ops[1..], id);
      forall i | 0 < i < |ops| ensures ops[i] == ops[1..][i - 1] {
      }
    }
  }

  lemma {:induction false} FoundRun(runs: seq<Run>, id: string) returns (k: nat)
    ensures FindRun(runs, id).None? ==> forall i :: 0 <= i < |runs| ==> runs[i].id != id
    ensures FindRun(runs, id).Some? ==> k < |runs| && FindRun(runs, id) == Some(runs[k]) && runs[k].id == id
  {
    k := 0;
    if runs != [] && runs[0].id != id {
      k := FoundRun(runs[1..], id);
      k := k + 1;
      forall i | 0 < i < |runs| ensures runs[i] == runs[1..][i - 1] {
      }
    }
  }

  predicate DistinctIds(runs: seq<Run>) {
    forall i, j :: 0 <= i < j < |runs| ==> runs[i].id != runs[j].id
  }

  predicate At(runs: seq<Run>, k: int, r: Run) {
    0 <= k < |runs| && runs[k] == r
  }

  lemma ReplacedRuns(runs: seq<Run>, k: nat, run: Run)
    requires k < |runs| && runs[k].id == run.id && DistinctIds(runs)
    ensures NextRuns(runs, run) == runs[k := run]
  {
  }

  // ---------------------------------------------------------------- sums over the runs

  predicate OtherRuns(runs: seq<Run>, id: string) {
    forall i :: 0 <= i < |runs| ==> runs[i].id != id
  }

  lemma CountAppended(ops: seq<Operation>, op: Operation, id: string)
    ensures CountOps(ops + [op], id) == CountOps(ops, id) + if op.run.id == id then 1 else 0
    ensures LatestRun(ops + [op], id) == if op.run.id == id then Some(op.run) else LatestRun(ops, id)
  {
    assert (ops + [op])[..|ops|] == ops;
  }

  /** Operations of another run change nothing for these runs. */
  lemma {:induction false} SumsFrame(runs: seq<Run>, ops: seq<Operation>, op: Operation, z: Sizes)
    requires OtherRuns(runs, op.run.id)
    ensures OperationHeadroom(runs, ops + [op]) == OperationHeadroom(runs, ops)
    ensures ByteHeadroom(runs, ops + [op], z) == ByteHeadroom(runs, ops, z)
  {
    if runs != [] {
      SumsFrame(runs[..|runs| - 1], ops, op, z);
      CountAppended(ops, op, runs[|runs| - 1].id);
    }
  }

  lemma {:induction false} SumsReplaced(runs: seq<Run>, k: nat, run: Run, ops: seq<Operation>, op: Operation, z: Sizes)
    requires k < |runs| && runs[k].id == run.id == op.run.id
    requires DistinctIds(runs)
    ensures OperationHeadroom(runs[k := run], ops + [op]) ==
            OperationHeadroom(runs, ops) - RunOperations(runs[k], ops) + RunOperations(run, ops + [op])
    ensures ByteHeadroom(runs[k := run], ops + [op], z) ==
            ByteHeadroom(runs, ops, z) - RunBytes(runs[k], ops, z) + RunBytes(run, ops + [op], z)
  {
    hide RunOperations, RunBytes;
    var init, n := runs[..|runs| - 1], |runs| - 1;
    if k == n {
      assert runs[k := run][..n] == init;
      SumsFrame(init, ops, op, z);
    } else {
      assert runs[k := run][..n] == init[k := run];
      SumsReplaced(init, k, run, ops, op, z);
      OtherRunStays(runs[n], ops, op, z);
    }
  }

  lemma OtherRunStays(r: Run, ops: seq<Operation>, op: Operation, z: Sizes)
    requires r.id != op.run.id
    ensures RunOperations(r, ops + [op]) == RunOperations(r, ops) && RunBytes(r, ops + [op], z) == RunBytes(r, ops, z)
  {
    CountAppended(ops, op, r.id);
  }

  lemma {:induction false} ItemsReplaced(runs: seq<Run>, k: nat, run: Run, z: Sizes)
    requires k < |runs|
    ensures RunItems(runs[k := run], z) == RunItems(runs, z) - z.run(runs[k]) + z.run(run)
    ensures ActiveCount(runs[k := run]) ==
            ActiveCount(runs) - (if RunIsTerminal(runs[k]) then 0 else 1) + if RunIsTerminal(run) then 0 else 1
  {
    var init, n := runs[..|runs| - 1], |runs| - 1;
    if k == n {
      assert runs[k := run][..n] == init;
    } else {
      assert runs[k := run][..n] == init[k := run];
      ItemsReplaced(init, k, run, z);
    }
  }

  lemma Appended(s: Store, run: Run, op: Operation, z: Sizes)
    requires OtherRuns(s.runs, run.id) && op.run == run
    ensures NextRuns(s.runs, run) == s.runs + [run]
    ensures RunItems(s.runs + [run], z) == RunItems(s.runs, z) + 6 + z.run(run)
    ensures ActiveCount(s.runs + [run]) == ActiveCount(s.runs) + if RunIsTerminal(run) then 0 else 1
    ensures OperationHeadroom(s.runs + [run], s.operations + [op]) ==
            OperationHeadroom(s.runs, s.operations) + RunOperations(run, s.operations + [op])
    ensures ByteHeadroom(s.runs + [run], s.operations + [op], z) ==
            ByteHeadroom(s.runs, s.operations, z) + RunBytes(run, s.operations + [op], z)
  {
    hide RunIsTerminal, RunBytes, RunOperations;
    assert (s.runs + [run])[..|s.runs|] == s.runs;
    SumsFrame(s.runs, s.operations, op, z);
  }

  lemma OperationAppended(ops: seq<Operation>, op: Operation, z: Sizes)
    ensures OperationItems(ops + [op], z) == OperationItems(ops, z) + 6 + z.operation(op)
  {
    assert (ops + [op])[..|ops|] == ops;
  }

  // ---------------------------------------------------------------- one more operation

  /** Operation slots and bytes in use or reserved. */
  function OperationsClaimed(s: Store): int {
    |s.operations| + OperationHeadroom(s.runs, s.operations)
  }

  function BytesClaimed(s: Store, z: Sizes): int {
    StoreBytes(s, z) + ByteHeadroom(s.runs, s.operations, z)
  }

  /** The items a step adds stay inside their slots. */
  predicate ItemsFit(op: Operation, z: Sizes) {
    RunFits(op.run, z) && RunSlotBytes(op.run, z) <= RUN_SLOT && OperationSlotBytes(op, z) <= OPERATION_SLOT
  }

  /** The runs stay inside their slots. */
  predicate SlotsFit(runs: seq<Run>, z: Sizes) {
    forall i :: 0 <= i < |runs| ==> RunSlotBytes(runs[i], z) <= RUN_SLOT
  }

  /** A step of the active run never increases what is used and reserved together. */
  lemma ClaimsNeverGrow(s: Store, k: nat, p: Run, op: Operation, z: Sizes)
    requires s.revision == |s.operations| && At(s.runs, k, p) && p.id == op.run.id && !RunIsTerminal(p) && DistinctIds(s.runs)
    requires 1 <= CountOps(s.operations, op.run.id) < FOOTPRINT && ItemsFit(op, z)
    ensures var next := Store(s.revision + 1, NextRuns(s.runs, op.run), s.operations + [op]);
            && OperationsClaimed(next) <= OperationsClaimed(s)
            && BytesClaimed(next, z) <= BytesClaimed(s, z)
            && ActiveCount(next.runs) <= ActiveCount(s.runs)
  {
    hide OperationHeadroom, ByteHeadroom, RunItems, OperationItems, ActiveCount, RunIsTerminal, Digits, LatestRun;
    ReplacedRuns(s.runs, k, op.run);
    SumsReplaced(s.runs, k, op.run, s.operations, op, z);
    ItemsReplaced(s.runs, k, op.run, z);
    OperationAppended(s.operations, op, z);
    CountAppended(s.operations, op, op.run.id);
    DigitsGrow(s.revision);
    if s.operations == [] {
      assert false;
    }
  }

  lemma {:induction false} HeadroomNonNegative(runs: seq<Run>, ops: seq<Operation>, z: Sizes)
    requires SlotsFit(runs, z)
    requires forall i :: 0 <= i < |runs| && !RunIsTerminal(runs[i]) ==> CountOps(ops, runs[i].id) <= FOOTPRINT
    ensures OperationHeadroom(runs, ops) >= 0 && ByteHeadroom(runs, ops, z) >= 0
  {
    hide RunIsTerminal, CountOps;
    if runs != [] {
      HeadroomNonNegative(runs[..|runs| - 1], ops, z);
    }
  }

  lemma LogExtended(ops: seq<Operation>, op: Operation, z: Sizes)
    requires ValidLog(ops, z) && OperationFollows(op, ops, z)
    requires FindOperation(ops, op.id).None? && Chronological(ops, op.at)
    ensures ValidLog(ops + [op], z)
  {
    hide OperationFollows, FindOperation;
    var log := ops + [op];
    FoundOperation(ops, op.id);
    forall i | 0 <= i < |log| ensures OperationFollows(log[i], log[..i], z) {
      assert log[..i] == if i < |ops| then ops[..i] else ops;
    }
  }

  lemma LawfulExtended(ops: seq<Operation>, op: Operation)
    requires Lawful(ops) && LawfulOperation(op, ops)
    ensures Lawful(ops + [op])
  {
    hide LawfulOperation;
    var log := ops + [op];
    forall i | 0 <= i < |log| ensures LawfulOperation(log[i], log[..i]) {
      assert log[..i] == if i < |ops| then ops[..i] else ops;
    }
  }

  lemma LatestReplaced(runs: seq<Run>, k: nat, p: Run, ops: seq<Operation>, op: Operation, z: Sizes)
    requires At(runs, k, p) && p.id == op.run.id && RunsAreLatest(runs, ops, z) && DistinctIds(runs)
    requires ValidRun(op.run) && ItemsFit(op, z)
    ensures RunsAreLatest(NextRuns(runs, op.run), ops + [op], z)
  {
    hide ValidRun, LatestRun;
    ReplacedRuns(runs, k, op.run);
    var runs', ops' := runs[k := op.run], ops + [op];
    forall i | 0 <= i < |runs'| ensures CurrentRun(runs'[i], ops', z) {
      CountAppended(ops, op, runs'[i].id);
    }
    forall i | 0 <= i < |ops'| ensures exists j :: 0 <= j < |runs'| && runs'[j].id == ops'[i].run.id {
      if i < |ops| {
        var j :| 0 <= j < |runs| && runs[j].id == ops[i].run.id;
        assert runs'[j].id == ops'[i].run.id;
      } else {
        assert runs'[k].id == ops'[i].run.id;
      }
    }
    assert forall i :: 0 <= i < |runs'| ==> CurrentRun(runs'[i], ops', z);
    assert forall i :: 0 <= i < |ops'| ==> exists j :: 0 <= j < |runs'| && runs'[j].id == ops'[i].run.id;
  }

  lemma LatestAppended(runs: seq<Run>, ops: seq<Operation>, op: Operation, z: Sizes)
    requires OtherRuns(runs, op.run.id) && RunsAreLatest(runs, ops, z)
    requires ValidRun(op.run) && ItemsFit(op, z)
    ensures RunsAreLatest(runs + [op.run], ops + [op], z)
    ensures LatestRun(ops, op.run.id).None? && CountOps(ops, op.run.id) == 0
  {
    hide ValidRun, LatestRun;
    var runs', ops' := runs + [op.run], ops + [op];
    forall i | 0 <= i < |runs'| ensures CurrentRun(runs'[i], ops', z) {
      CountAppended(ops, op, runs'[i].id);
    }
    forall i | 0 <= i < |ops'| ensures exists j :: 0 <= j < |runs'| && runs'[j].id == ops'[i].run.id {
      if i < |ops| {
        var j :| 0 <= j < |runs| && runs[j].id == ops[i].run.id;
        assert runs'[j].id == ops'[i].run.id;
      } else {
        assert runs'[|runs|].id == ops'[i].run.id;
      }
    }
    assert forall i :: 0 <= i < |runs'| ==> CurrentRun(runs'[i], ops', z);
    assert forall i :: 0 <= i < |ops'| ==> exists j :: 0 <= j < |runs'| && runs'[j].id == ops'[i].run.id;
    NoOperations(ops, op.run.id);
    LatestHasOps(ops, op.run.id);
  }

  lemma {:induction false} NoOperations(ops: seq<Operation>, id: string)
    requires forall i :: 0 <= i < |ops| ==> ops[i].run.id != id
    ensures CountOps(ops, id) == 0
  {
    if ops != [] {
      NoOperations(ops[..|ops| - 1], id);
    }
  }

  // ---------------------------------------------------------------- a step follows its predecessor

  lemma KeptFollows(rec: RoleRecord, rec': RoleRecord)
    requires History.RoleKept(rec, rec')
    ensures LeaseFollows(rec, rec')
  {
    if rec.attempts != [] {
      assert rec'.attempts[0].id == rec.attempts[0].id;
    }
  }

  lemma PerformFollows(o: Origin, events: seq<Event>, r: Run, s: Step, at: int, next: Run)
    requires Reaches(o, events, r) && Perform(r, s, at) == Ok(next)
    ensures Follows(r, next) && ValidRun(next) && next.id == r.id
    ensures !RunIsTerminal(r) && 1 + |events| == r.revision < next.revision <= 71
  {
    hide Reaches, Perform, ValidRun, LeaseFollows, History.Ordered;
    Bound.RunLength(o, events, r);
    Extended(o, events, r, Event(s, at), next);
    Bound.RunLength(o, events + [Event(s, at)], next);
    Safety.IdentityKept(r, s, at, next);
    if Terminal(r) {
      Bound.TerminalIsFinal(o, events, r, s, at);
      assert false;
    }
    History.ValidPhase(r);
    NotCanceled(r);
    History.PerformKeeps(r, s, at, next);
    KeptRoles(r, next);
    RolesFollow(r.roles, next.roles);
  }

  lemma NotCanceled(r: Run)
    requires PhaseLifecycle(r) && !Terminal(r)
    ensures !RunIsTerminal(r)
  {
    hide CompletedAndCleaned;
  }

  lemma KeptRoles(r: Run, next: Run)
    requires History.StepKeeps(r, next.(revision := r.revision))
    ensures History.RolesKept(r.roles, next.roles)
  {
    hide History.RolesKept;
  }

  lemma RolesFollow(t: RoleTable, t': RoleTable)
    requires History.RolesKept(t, t')
    ensures LeaseFollows(t.po, t'.po) && LeaseFollows(t.ba, t'.ba) && LeaseFollows(t.qa, t'.qa) && LeaseFollows(t.dev, t'.dev)
  {
    hide History.RoleKept, LeaseFollows;
    KeptFollows(t.po, t'.po);
    KeptFollows(t.ba, t'.ba);
    KeptFollows(t.qa, t'.qa);
    KeptFollows(t.dev, t'.dev);
  }

  // ---------------------------------------------------------------- admitted runs are never refused

  /** The operation a call would record. */
  function Recorded(s: Store, c: Call, at: int, run: Run): Operation {
    Operation(c.operationId, RequestOf(c), at, s.revision + 1, run)
  }

  lemma RequestLawful(before: seq<Operation>, op: Operation, c: Call, step: Step, p: Run)
    requires StepOf(c) == Some(step) && op.request == RequestOf(c) && LatestRun(before, op.run.id) == Some(p)
    requires Perform(p, step, op.at) == Ok(op.run)
    ensures LawfulOperation(op, before)
  {
    hide Perform, CreateRun;
    var e, f := step.RecordReport? && step.envelopeFits, step.RecordReport? && step.candidateFits;
    assert Sized(op.request.step, e, f) == step;
  }

  /** The active run stays reservable and inside the capacity of the store. */
  lemma StepWithinCapacity(s: Store, k: nat, p: Run, op: Operation, z: Sizes)
    requires ValidStore(s, z) && At(s.runs, k, p) && p.id == op.run.id && !RunIsTerminal(p)
    requires 1 <= CountOps(s.operations, op.run.id) < FOOTPRINT && ItemsFit(op, z)
    ensures var next := Store(s.revision + 1, NextRuns(s.runs, op.run), s.operations + [op]);
            Reservable(next) && WithinCapacity(next, z) && |next.operations| <= MAX_OPERATIONS
  {
    hide OperationHeadroom, ByteHeadroom, ActiveCount, RunIsTerminal, StoreBytes, CurrentRun, OperationFollows, CountOps, ValidRun, RunFits,
      RunSlotBytes, OperationSlotBytes, SamePlan;
    ReplacedRuns(s.runs, k, op.run);
    var next := Store(s.revision + 1, s.runs[k := op.run], s.operations + [op]);
    ClaimsNeverGrow(s, k, p, op, z);
    Slots(s, z);
    forall i | 0 <= i < |next.runs|
      ensures CountOps(next.operations, next.runs[i].id) == CountOps(s.operations, next.runs[i].id) + if next.runs[i].id == op.run.id then 1 else 0
      ensures RunSlotBytes(next.runs[i], z) <= RUN_SLOT
    {
      CountAppended(s.operations, op, next.runs[i].id);
    }
    HeadroomNonNegative(next.runs, next.operations, z);
  }

  lemma Slots(s: Store, z: Sizes)
    requires ValidStore(s, z)
    ensures SlotsFit(s.runs, z)
  {
    hide ValidRun, RunIsTerminal, OperationFollows, Reservable, WithinCapacity, RunSlotBytes;
    forall i | 0 <= i < |s.runs| ensures RunSlotBytes(s.runs[i], z) <= RUN_SLOT {
      assert CurrentRun(s.runs[i], s.operations, z);
    }
  }

  lemma SameDistinct(runs: seq<Run>, k: nat, p: Run, run: Run)
    requires At(runs, k, p) && DistinctRuns(runs) && run.id == p.id && SamePlan(run, p) && !RunIsTerminal(p)
    ensures DistinctRuns(NextRuns(runs, run))
  {
    hide RunIsTerminal;
    ReplacedRuns(runs, k, run);
  }

  /** What the store knows about a run found in it. */
  lemma FoundInStore(s: Store, id: string, z: Sizes, p: Run) returns (k: nat, o: Origin, events: seq<Event>)
    requires Healthy(s, z) && FindRun(s.runs, id) == Some(p)
    ensures At(s.runs, k, p) && p.id == id && LatestRun(s.operations, id) == Some(p)
    ensures Reaches(o, events, p) && CountOps(s.operations, id) == 1 + |events|
  {
    hide ValidRun, Lawful, Reaches, ValidLog, Reservable, WithinCapacity, DistinctRuns, LatestRun;
    k := FoundRun(s.runs, id);
    assert CurrentRun(s.runs[k], s.operations, z);
    o, events := LogReaches(s.operations, id, p);
  }

  /** A step that the run accepts, on a store that passes its own checks, is stored whenever the new
      items fit their slots: the store never refuses it for lack of operations or bytes, and its
      validator never rejects the result. */
  lemma StepAdmitted(s: Store, c: Call, env: Env, z: Sizes, step: Step, p: Run, run: Run)
    requires Healthy(s, z) && StepOf(c) == Some(step) && c.operationId != "" && FindOperation(s.operations, c.operationId).None?
    requires s.revision == c.storeRevision && FindRun(s.runs, c.runId) == Some(p) && p.revision == c.runRevision
    requires Chronological(s.operations, env.at) && Perform(p, step, env.at) == Ok(run) && ItemsFit(Recorded(s, c, env.at, run), z)
    ensures var next := NextStore(s, c.operationId, RequestOf(c), env.at, run);
            Decide(s, c, env, z) == Commit(next) && Healthy(next, z)
  {
    hide ValidStore, Lawful, Perform, Reaches, OperationFollows, LawfulOperation, ItemsFit, NextRuns, CreateRun,
      ValidRun, Follows;
    var k, o, events := FoundInStore(s, c.runId, z, p);
    PerformFollows(o, events, p, step, env.at, run);
    StoredStep(s, k, p, o, events, c, step, env.at, z, run);
    RoomForStep(s, k, p, z);
  }

  lemma RoomForStep(s: Store, k: nat, p: Run, z: Sizes)
    requires ValidStore(s, z) && At(s.runs, k, p) && !RunIsTerminal(p) && CountOps(s.operations, p.id) < FOOTPRINT
    ensures |s.operations| < MAX_OPERATIONS
  {
    hide ValidRun, RunIsTerminal, OperationFollows, CurrentRun, CountOps, StoreBytes, ByteHeadroom, OperationHeadroom, DistinctRuns;
    ActiveHeadroom(s.runs, s.operations, k);
  }

  lemma {:induction false} ActiveHeadroom(runs: seq<Run>, ops: seq<Operation>, k: nat)
    requires k < |runs| && !RunIsTerminal(runs[k])
    requires forall i :: 0 <= i < |runs| && !RunIsTerminal(runs[i]) ==> CountOps(ops, runs[i].id) <= FOOTPRINT
    ensures OperationHeadroom(runs, ops) >= FOOTPRINT - CountOps(ops, runs[k].id)
  {
    hide RunIsTerminal, CountOps;
    var init := runs[..|runs| - 1];
    if k == |runs| - 1 {
      OperationsNonNegative(init, ops);
    } else {
      ActiveHeadroom(init, ops, k);
    }
  }

  lemma {:induction false} OperationsNonNegative(runs: seq<Run>, ops: seq<Operation>)
    requires forall i :: 0 <= i < |runs| && !RunIsTerminal(runs[i]) ==> CountOps(ops, runs[i].id) <= FOOTPRINT
    ensures OperationHeadroom(runs, ops) >= 0
  {
    hide RunIsTerminal, CountOps;
    if runs != [] {
      OperationsNonNegative(runs[..|runs| - 1], ops);
    }
  }

  lemma StoredStep(s: Store, k: nat, p: Run, o: Origin, events: seq<Event>, c: Call, step: Step, at: int, z: Sizes, run: Run)
    requires Healthy(s, z) && StepOf(c) == Some(step) && c.operationId != "" && FindOperation(s.operations, c.operationId).None?
    requires At(s.runs, k, p) && p.id == c.runId && LatestRun(s.operations, c.runId) == Some(p)
    requires Reaches(o, events, p) && CountOps(s.operations, c.runId) == 1 + |events|
    requires Chronological(s.operations, at) && Perform(p, step, at) == Ok(run) && ItemsFit(Recorded(s, c, at, run), z)
    ensures Healthy(NextStore(s, c.operationId, RequestOf(c), at, run), z)
  {
    hide Perform, Reaches, OperationFollows, LawfulOperation, ValidRun, Follows, RunIsTerminal, CurrentRun, StoreBytes, OperationHeadroom,
      ByteHeadroom, ActiveCount, SamePlan, ValidLog, Lawful, RunsAreLatest, DistinctRuns, LatestRun, CountOps, Reservable, WithinCapacity,
      ItemsFit, StepOf, FindOperation, NextRuns, DistinctIds;
    var op := Recorded(s, c, at, run);
    PerformFollows(o, events, p, step, at, run);
    RequestLawful(s.operations, op, c, step, p);
    LawfulExtended(s.operations, op);
    StepRecorded(c, step);
    StepOperationFollows(s.operations, p, op, z);
    LogExtended(s.operations, op, z);
    IdsDistinct(s, z);
    LatestReplaced(s.runs, k, p, s.operations, op, z);
    FollowsSamePlan(p, run);
    SameDistinct(s.runs, k, p, run);
    StepWithinCapacity(s, k, p, op, z);
    SameLength(s.runs, k, p, run);
  }

  lemma StepRecorded(c: Call, step: Step)
    requires StepOf(c) == Some(step)
    ensures RequestOf(c).StepRequest?
  {
  }

  lemma SameLength(runs: seq<Run>, k: nat, p: Run, run: Run)
    requires At(runs, k, p) && p.id == run.id
    ensures |NextRuns(runs, run)| == |runs|
  {
  }

  lemma IdsDistinct(s: Store, z: Sizes)
    requires ValidStore(s, z)
    ensures DistinctIds(s.runs)
  {
    hide ValidLog, RunsAreLatest, Reservable, WithinCapacity, RunIsTerminal;
  }

  lemma FollowsSamePlan(p: Run, run: Run)
    requires Follows(p, run)
    ensures SamePlan(run, p)
  {
    hide LeaseFollows;
  }

  lemma StepOperationFollows(before: seq<Operation>, p: Run, op: Operation, z: Sizes)
    requires LatestRun(before, op.run.id) == Some(p) && Follows(p, op.run) && ValidRun(op.run)
    requires op.id != "" && op.request.StepRequest? && op.storeRevision == |before| + 1 && ItemsFit(op, z)
    ensures OperationFollows(op, before, z)
  {
    hide ValidRun, Follows, LatestRun;
  }

  // ---------------------------------------------------------------- creation

  lemma CreatedRun(id: string, plan: Plan, at: int, run: Run)
    requires CreateRun(id, plan, at) == Ok(run)
    ensures ValidRun(run) && run.id == id && run.revision == 1 && !RunIsTerminal(run)
  {
    hide ValidRun;
  }

  /** Reserving the whole run before it exists covers its first operation as well. */
  lemma CreateWithinCapacity(s: Store, op: Operation, z: Sizes)
    requires s.revision == |s.operations| && OtherRuns(s.runs, op.run.id) && !RunIsTerminal(op.run) && CountOps(s.operations, op.run.id) == 0
    requires SlotsFit(s.runs, z) && RoomToCreate(s, z) && ItemsFit(op, z) && Reservable(s)
    ensures var next := Store(s.revision + 1, s.runs + [op.run], s.operations + [op]);
            Reservable(next) && WithinCapacity(next, z)
  {
    hide RunIsTerminal, RunFits, CountOps, Digits, LatestRun;
    var next := Store(s.revision + 1, s.runs + [op.run], s.operations + [op]);
    Appended(s, op.run, op, z);
    OperationAppended(s.operations, op, z);
    DigitsGrow(s.revision);
    NoneActive(s.runs, s.operations, z);
    CountAppended(s.operations, op, op.run.id);
    forall i | 0 <= i < |s.runs| ensures CountOps(next.operations, s.runs[i].id) == CountOps(s.operations, s.runs[i].id) {
      CountAppended(s.operations, op, s.runs[i].id);
    }
  }

  lemma {:induction false} NoneActive(runs: seq<Run>, ops: seq<Operation>, z: Sizes)
    requires ActiveCount(runs) == 0
    ensures OperationHeadroom(runs, ops) == 0 && ByteHeadroom(runs, ops, z) == 0
    ensures forall i :: 0 <= i < |runs| ==> RunIsTerminal(runs[i])
  {
    hide RunIsTerminal;
    if runs != [] {
      NoneActive(runs[..|runs| - 1], ops, z);
    }
  }

  lemma AppendedDistinct(runs: seq<Run>, run: Run)
    requires DistinctRuns(runs) && OtherRuns(runs, run.id) && !SomeSamePlan(runs, run)
    ensures DistinctRuns(runs + [run])
  {
    hide RunIsTerminal, SamePlan;
  }

  lemma CreateLawful(before: seq<Operation>, op: Operation, c: Call, plan: Plan)
    requires PlanOf(c) == Some(plan) && op.request == RequestOf(c)
    requires LatestRun(before, op.run.id).None? && CreateRun(op.run.id, plan, op.at) == Ok(op.run)
    ensures LawfulOperation(op, before)
  {
    hide CreateRun, Perform;
  }

  lemma CreateOperationFollows(before: seq<Operation>, op: Operation, z: Sizes)
    requires op.id != "" && op.request.CreateRequest? && op.storeRevision == |before| + 1 && ItemsFit(op, z)
    requires LatestRun(before, op.run.id).None? && op.run.revision == 1 && ValidRun(op.run)
    ensures OperationFollows(op, before, z)
  {
    hide ValidRun, LatestRun, Follows;
  }

  lemma StoredCreate(s: Store, c: Call, plan: Plan, at: int, z: Sizes, run: Run)
    requires Healthy(s, z) && PlanOf(c) == Some(plan) && c.operationId != "" && FindOperation(s.operations, c.operationId).None?
    requires FindRun(s.runs, run.id).None? && CreateRun(run.id, plan, at) == Ok(run)
    requires Chronological(s.operations, at) && RoomToCreate(s, z) && ItemsFit(Recorded(s, c, at, run), z)
    requires !SomeSamePlan(s.runs, run)
    ensures Healthy(NextStore(s, c.operationId, RequestOf(c), at, run), z)
  {
    hide CreateRun, OperationFollows, LawfulOperation, ValidRun, RunIsTerminal, CurrentRun, StoreBytes, OperationHeadroom, ByteHeadroom,
      ActiveCount, SamePlan, ValidLog, Lawful, RunsAreLatest, DistinctRuns, LatestRun, CountOps, Reservable, WithinCapacity, ItemsFit,
      FindOperation, FindRun, RunSlotBytes, SomeSamePlan, SlotsFit;
    var op := Recorded(s, c, at, run);
    CreatedRun(run.id, plan, at, run);
    var _ := FoundRun(s.runs, run.id);
    LatestAppended(s.runs, s.operations, op, z);
    CreateLawful(s.operations, op, c, plan);
    LawfulExtended(s.operations, op);
    CreateOperationFollows(s.operations, op, z);
    LogExtended(s.operations, op, z);
    AppendedDistinct(s.runs, run);
    Slots(s, z);
    CreateWithinCapacity(s, op, z);
    Appended(s, run, op, z);
  }

  /** A creation that is otherwise in order is stored exactly when the whole reservation of the run is
      available; nothing the store validator checks afterwards can still refuse it. */
  lemma CreateAdmitted(s: Store, c: Call, env: Env, z: Sizes, plan: Plan, run: Run)
    requires Healthy(s, z) && PlanOf(c) == Some(plan) && c.operationId != "" && FindOperation(s.operations, c.operationId).None?
    requires s.revision == c.storeRevision && Chronological(s.operations, env.at)
    requires run.id == NewId(c, env) && FindRun(s.runs, run.id).None?
    requires CreateRun(run.id, plan, env.at) == Ok(run) && ItemsFit(Recorded(s, c, env.at, run), z) && !SomeSamePlan(s.runs, run)
    ensures Decide(s, c, env, z).Commit? <==> RoomToCreate(s, z)
    ensures RoomToCreate(s, z) ==>
              var next := NextStore(s, c.operationId, RequestOf(c), env.at, run);
              Decide(s, c, env, z) == Commit(next) && Healthy(next, z)
  {
    hide ValidStore, Lawful, CreateRun, ItemsFit, NextRuns, RoomToCreate, SomeSamePlan, Perform;
    if RoomToCreate(s, z) {
      StoredCreate(s, c, plan, env.at, z, run);
    }
  }

  /** Whatever is stored is healthy again and logs exactly this call. */
  lemma CommitHealthy(s: Store, c: Call, env: Env, z: Sizes, next: Store) returns (op: Operation)
    requires Healthy(s, z) && Decide(s, c, env, z) == Commit(next)
    ensures CommitsCall(s, c, op, next, z) && FindOperation(s.operations, c.operationId).None?
  {
    hide ValidStore, Lawful, CreateRun, Perform, NextRuns, RoomToCreate, LawfulOperation, Reaches, FindOperation, SomeSamePlan, CommitsCall;
    hide DecideCreate, DecideStep;
    match c
    case CreateCall(_, _, _, plan) => op := CommitCreate(s, c, plan, env, z, next);
    case StepCall(_, _, runRevision, _, _) => op := CommitStep(s, c, runRevision, StepOf(c).value, env.at, z, next);
  }

  lemma StoreRevision(s: Store, z: Sizes)
    requires ValidStore(s, z)
    ensures s.revision == |s.operations|
  {
    hide ValidLog, RunsAreLatest, Reservable, WithinCapacity, DistinctRuns;
  }

  /** The stored store is the old one with one lawful operation of this call. */
  predicate CommitsCall(s: Store, c: Call, op: Operation, next: Store, z: Sizes) {
    && Healthy(next, z) && next.operations == s.operations + [op] && op.id == c.operationId && op.request == RequestOf(c)
  }

  lemma CommitStep(s: Store, c: Call, runRevision: int, step: Step, at: int, z: Sizes, next: Store) returns (op: Operation)
    requires Healthy(s, z) && StepOf(c) == Some(step) && DecideStep(s, c, runRevision, step, at, z) == Commit(next)
    ensures CommitsCall(s, c, op, next, z)
  {
    hide ValidStore, Lawful, Perform, NextRuns, LawfulOperation, Reaches, ValidRun, CreateRun, FindOperation,
      CountOps, LatestRun, Follows;
    op := next.operations[|s.operations|];
    var p := FindRun(s.runs, c.runId).value;
    var k, o, events := FoundInStore(s, c.runId, z, p);
    PerformFollows(o, events, p, step, at, op.run);
    RequestLawful(s.operations, op, c, step, p);
    LawfulExtended(s.operations, op);
  }

  lemma CommitCreate(s: Store, c: Call, plan: Plan, env: Env, z: Sizes, next: Store) returns (op: Operation)
    requires Healthy(s, z) && PlanOf(c) == Some(plan) && DecideCreate(s, c, NewId(c, env), plan, env.at, z) == Commit(next)
    ensures CommitsCall(s, c, op, next, z)
  {
    hide ValidStore, Lawful, CreateRun, NextRuns, LawfulOperation, SomeSamePlan, RoomToCreate, Perform, ValidRun;
    op := next.operations[|s.operations|];
    CreatedRun(NewId(c, env), plan, env.at, op.run);
    CommitCreateLawful(s, c, plan, z, op);
    LawfulExtended(s.operations, op);
  }

  lemma CommitCreateLawful(s: Store, c: Call, plan: Plan, z: Sizes, op: Operation)
    requires Healthy(s, z) && PlanOf(c) == Some(plan) && op.request == RequestOf(c)
    requires FindRun(s.runs, op.run.id).None? && CreateRun(op.run.id, plan, op.at) == Ok(op.run)
    ensures LawfulOperation(op, s.operations)
  {
    hide CreateRun, ValidRun, Lawful, ValidLog, Reservable, WithinCapacity, DistinctRuns, CurrentRun, LatestRun, Perform;
    var _ := FoundRun(s.runs, op.run.id);
    forall i | 0 <= i < |s.operations| ensures s.operations[i].run.id != op.run.id {
    }
    NoOperations(s.operations, op.run.id);
    LatestHasOps(s.operations, op.run.id);
    CreateLawful(s.operations, op, c, plan);
  }
}
