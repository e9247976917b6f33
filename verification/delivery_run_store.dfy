/** The store of Delivery Runs: one run for each approved plan, each with its frontier. */
module DeliveryRunStore {
  import opened Errors
  import opened Wrappers
  import opened DeliveryRuns
  import opened Frontier = DeliveryFrontier
  import opened LoggedStores
  import Repo = Repositories
  import DurableJson

  const MAX_RUNS := 64
  const MAX_OPERATIONS := 512

  datatype Request =
    | NewRun(storeRevision: int, origin: Origin)
    | ChangeRun(storeRevision: int, runRevision: int, runId: string, step: Step)

  /** A request with its operation id, the time it is served at, and the id a new run gets when it brings none. */
  datatype Call = Call(operationId: string, request: Request, at: int, freshId: string)

  type RunStore = Store<Run, Request>

  /** Whether a run and a store stay within their byte limits. */
  datatype Sizes = Sizes(runFits: Run -> bool, storeFits: RunStore -> bool)

  function RunId(r: Run): string {
    r.id
  }

  predicate SamePlan(a: Run, b: Run) {
    a.planId == b.planId && a.planDigest == b.planDigest
  }

  predicate SomeSamePlan(runs: seq<Run>, r: Run) {
    exists i :: 0 <= i < |runs| && SamePlan(runs[i], r)
  }

  /** No two runs, ended ones included, carry out the same plan definition. */
  predicate PlansDistinct(runs: seq<Run>) {
    forall i, j :: 0 <= i < j < |runs| ==> !SamePlan(runs[i], runs[j])
  }

  predicate Fresh(r: Run) {
    r.revision == 1 && r.condition == Preparing && r.abort.None?
  }

  predicate SameBinding(before: Run, after: Run) {
    && after.createdAt == before.createdAt
    && after.planId == before.planId && after.planRevision == before.planRevision && after.planDigest == before.planDigest
    && after.start == before.start && |after.tasks| == |before.tasks|
    && forall i :: 0 <= i < |after.tasks| ==>
         after.tasks[i].input == before.tasks[i].input && after.tasks[i].bindingKey == before.tasks[i].bindingKey
  }

  /** What the log validator asks of two consecutive snapshots of a run. */
  predicate SnapshotFollows(q: Request, at: int, before: Run, after: Run) {
    && after.revision == before.revision + 1 && SameBinding(before, after)
    && (if q.ChangeRun? && q.step.AbortRun? then
          && after.condition == Aborted && before.condition != Aborted
          && after.abort.Some? && after.abort.value.fromCondition == before.condition && after.abort.value.abortedAt == at
        else after.condition != Aborted && before.condition != Aborted)
  }

  /** The operator's evidence for an abort carries the time of the abort. */
  function TimedEvidence(evidence: seq<Evidence>, at: int): seq<Evidence> {
    seq(|evidence|, i requires 0 <= i < |evidence| => evidence[i].(createdAt := at))
  }

  function TimedStep(s: Step, at: int): Step {
    match s
    case AbortRun(confirmed, reason, evidence) => AbortRun(confirmed, reason, TimedEvidence(evidence, at))
    case _ => s
  }

  function Create(s: RunStore, c: Call, z: Sizes, origin: Origin): Result<Run> {
    var id := if origin.id != "" then origin.id else c.freshId;
    if |s.operations| >= MAX_OPERATIONS then Err(RunStoreOperationLimitReached) else
    if |s.items| >= MAX_RUNS then Err(RunStoreRunLimitReached) else
    if !Chronological(s, c.at) then Err(RunStoreClockRegressed) else
    if HasItem(RunId, s.items, id) then Err(RunStoreRunDuplicate) else
    var r :- CreateRun(origin.(id := id, at := c.at));
    if SomeSamePlan(s.items, r) then Err(RunStorePlanBindingDuplicate) else
    Ok(r)
  }

  function Change(s: RunStore, c: Call, runId: string, runRevision: int, step: Step): Result<Run> {
    var r := FindItem(RunId, s.items, runId);
    if |s.operations| >= MAX_OPERATIONS then Err(RunStoreOperationLimitReached) else
    if r.None? then Err(RunStoreRunNotFound) else
    if r.value.revision != runRevision then Err(RunStoreRunRevisionConflict) else
    if !Chronological(s, c.at) then Err(RunStoreClockRegressed) else
    Perform(r.value, TimedStep(step, c.at), c.at)
  }

  /** What a new operation makes of the store: the next snapshot of one run. */
  function Produce(s: RunStore, c: Call, z: Sizes): Result<Run> {
    if c.operationId == "" then Err(RunStoreOperationIdInvalid) else
    if s.revision != c.request.storeRevision then Err(RunStoreRevisionConflict) else
    match c.request
    case NewRun(_, origin) => Create(s, c, z, origin)
    case ChangeRun(_, revision, id, step) => Change(s, c, id, revision, step)
  }

  function KindOf(z: Sizes): Kind<Run, Call, Request> {
    Kind(RunId,
         (r: Run) => ValidRun(r) && z.runFits(r),
         (q: Request) => q.NewRun?,
         (r: Run) => Fresh(r),
         (q: Request, at: int, before: Run, after: Run) => SnapshotFollows(q, at, before, after),
         MAX_RUNS, MAX_OPERATIONS, z.storeFits,
         (c: Call) => c.operationId, (c: Call) => c.request, (c: Call) => c.at,
         (s: RunStore, c: Call) => Produce(s, c, z))
  }

  /** The snapshot is a new run, or what one accepted step made of the one before. */
  predicate RunLaw(q: Request, at: int, before: Option<Run>, after: Run) {
    match q
    case NewRun(_, origin) => before.None? && CreateRun(origin.(id := after.id, at := at)) == Ok(after)
    case ChangeRun(_, _, _, step) => before.Some? && Perform(before.value, TimedStep(step, at), at) == Ok(after)
  }

  function MeaningOf(): Meaning<Run, Request> {
    Meaning((q: Request, at: int, before: Option<Run>, after: Run) => RunLaw(q, at, before, after), PlansDistinct)
  }

  // ---------------------------------------------------------------- what a step keeps

  /** The changed copy is still the same run, and aborted exactly by aborting it. */
  predicate ChangeFollows(r: Run, aborts: bool, at: int, next: Run) {
    && SameBinding(r, next) && next.id == r.id && next.revision == r.revision && r.condition != Aborted
    && if aborts then
         && next.condition == Aborted && next.abort.Some?
         && next.abort.value.fromCondition == r.condition && next.abort.value.abortedAt == at
       else next.condition != Aborted
  }

  lemma AbortFollows(r: Run, confirmed: bool, reason: string, evidence: seq<Evidence>, at: int)
    requires |r.tasks| == |r.outbox| && AbortStep(r, confirmed, reason, evidence, at).Ok?
    ensures ChangeFollows(r, true, at, AbortStep(r, confirmed, reason, evidence, at).value)
  {
    hide ExpectedLevel, FreshEvidence, Cut;
  }

  lemma VerifyFollows(r: Run, i: nat, s: Step, at: int)
    requires i < |r.tasks| == |r.outbox| && s.Verify? && VerifyStep(r, i, s, at).Ok?
    ensures ChangeFollows(r, false, at, VerifyStep(r, i, s, at).value)
  {
    hide ExpectedLevel, FreshEvidence, CriteriaCover, AllPassed;
  }

  lemma WorkFollows(r: Run, i: nat, s: Step, at: int)
    requires i < |r.tasks| == |r.outbox| && (s.LinkMission? || s.RequireReconcile? || s.Capture? || s.LeaveCourse?)
    requires FindTask(r.tasks, s.stepId) == Some(i) && Mutated(r, s, at).Ok?
    ensures ChangeFollows(r, false, at, Mutated(r, s, at).value)
  {
    hide ExpectedLevel, FreshEvidence, Cut, FindTask, AbortStep, VerifyStep;
  }

  lemma MutatedFollows(r: Run, s: Step, at: int, next: Run)
    requires |r.tasks| == |r.outbox| && Mutated(r, s, at) == Ok(next)
    ensures ChangeFollows(r, s.AbortRun?, at, next)
  {
    hide ChangeFollows, Link, Reconcile, CaptureStep, VerifyStep, AbortStep, OffCourseStep;
    match s {
      case AbortRun(confirmed, reason, evidence) => AbortFollows(r, confirmed, reason, evidence, at);
      case Verify(_, _, _, _, _, _, _) => VerifyFollows(r, FindTask(r.tasks, s.stepId).value, s, at);
      case _ => WorkFollows(r, FindTask(r.tasks, s.stepId).value, s, at);
    }
  }

  lemma PerformFollows(r: Run, q: Request, at: int, next: Run)
    requires q.ChangeRun? && Perform(r, TimedStep(q.step, at), at) == Ok(next)
    ensures SnapshotFollows(q, at, r, next) && next.id == r.id && ValidRun(next)
  {
    hide ValidRun, Mutated;
    assert |r.tasks| == |r.outbox| by { ValidLengths(r); }
    MutatedFollows(r, TimedStep(q.step, at), at, Mutated(r, TimedStep(q.step, at), at).value);
  }

  lemma CreatedFresh(o: Origin, r: Run)
    requires CreateRun(o) == Ok(r)
    ensures Fresh(r) && ValidRun(r) && r.id == o.id
  {
    hide ValidRun;
  }

  // ---------------------------------------------------------------- what the store holds

  /** The run a change starts from, and what it makes of it. */
  lemma ChangeApplies(s: RunStore, c: Call, z: Sizes)
    requires c.request.ChangeRun? && Produce(s, c, z).Ok?
    ensures var before, after := FindItem(RunId, s.items, c.request.runId), Produce(s, c, z).value;
            && before.Some? && Perform(before.value, TimedStep(c.request.step, c.at), c.at) == Ok(after)
            && RunId(before.value) == RunId(after) == c.request.runId && SnapshotFollows(c.request, c.at, before.value, after) && ValidRun(after)
    ensures Chronological(s, c.at) && |s.operations| < MAX_OPERATIONS && c.operationId != ""
  {
    hide Perform, Create, FindItem, HasItem, ValidRun, SnapshotFollows, TimedStep;
    var i := FoundItem(RunId, s.items, c.request.runId);
    PerformFollows(FindItem(RunId, s.items, c.request.runId).value, c.request, c.at, Produce(s, c, z).value);
  }

  lemma CreateMakes(s: RunStore, c: Call, z: Sizes)
    requires c.request.NewRun? && Produce(s, c, z).Ok?
    ensures var r := Produce(s, c, z).value;
            && CreateRun(c.request.origin.(id := RunId(r), at := c.at)) == Ok(r) && Fresh(r) && ValidRun(r)
            && !HasItem(RunId, s.items, RunId(r)) && !SomeSamePlan(s.items, r)
    ensures Chronological(s, c.at) && |s.operations| < MAX_OPERATIONS && |s.items| < MAX_RUNS && c.operationId != ""
  {
    hide ValidRun, HasItem, CreateRun, SomeSamePlan, Change;
    var origin := c.request.origin;
    var id := if origin.id != "" then origin.id else c.freshId;
    CreatedFresh(origin.(id := id, at := c.at), Produce(s, c, z).value);
  }

  /** A step keeps the plan of its run, so plans stay distinct. */
  lemma PlansStayDistinct(runs: seq<Run>, r: Run)
    requires PlansDistinct(runs) && forall i, j :: 0 <= i < j < |runs| ==> RunId(runs[i]) != RunId(runs[j])
    requires if HasItem(RunId, runs, RunId(r)) then forall i :: 0 <= i < |runs| && RunId(runs[i]) == RunId(r) ==> SamePlan(runs[i], r)
             else !SomeSamePlan(runs, r)
    ensures PlansDistinct(NextItems(RunId, runs, r))
  {
    var next := NextItems(RunId, runs, r);
    forall i, j | 0 <= i < j < |next| ensures !SamePlan(next[i], next[j]) {
      if j < |runs| {
        assert !SamePlan(runs[i], runs[j]);
      }
    }
  }

  /** What a request makes of the store is lawful, and keeps plans distinct. */
  predicate MakesLawfully(s: RunStore, c: Call, r: Run) {
    RunLaw(c.request, c.at, FindItem(RunId, s.items, RunId(r)), r) && PlansDistinct(NextItems(RunId, s.items, r))
  }

  lemma CreateLawful(s: RunStore, c: Call, z: Sizes)
    requires ValidStore(KindOf(z), s) && PlansDistinct(s.items) && c.request.NewRun? && Produce(s, c, z).Ok?
    ensures MakesLawfully(s, c, Produce(s, c, z).value)
  {
    hide ValidStore, Produce, CreateRun, HasItem, FindItem, NextItems, PlansDistinct, Perform, ValidRun, KindOf;
    var r := Produce(s, c, z).value;
    var i := FoundItem(RunId, s.items, RunId(r));
    StoreDistinct(s, z);
    CreateMakes(s, c, z);
    PlansStayDistinct(s.items, r);
  }

  lemma ChangeLawful(s: RunStore, c: Call, z: Sizes)
    requires ValidStore(KindOf(z), s) && PlansDistinct(s.items) && c.request.ChangeRun? && Produce(s, c, z).Ok?
    ensures MakesLawfully(s, c, Produce(s, c, z).value)
  {
    hide ValidStore, Produce, Perform, HasItem, FindItem, NextItems, TimedStep, PlansDistinct, SnapshotFollows,
      SamePlan, ValidRun, CreateRun;
    var r := Produce(s, c, z).value;
    var i := FoundItem(RunId, s.items, RunId(r));
    StoreDistinct(s, z);
    ChangeApplies(s, c, z);
    FollowsSamePlan(c.request, c.at, s.items[i], r);
    assert forall j :: 0 <= j < |s.items| && RunId(s.items[j]) == RunId(r) ==> j == i;
    PlansStayDistinct(s.items, r);
  }

  lemma FollowsSamePlan(q: Request, at: int, before: Run, after: Run)
    requires SnapshotFollows(q, at, before, after)
    ensures SamePlan(before, after)
  {
  }

  lemma ProducesLawfully(s: RunStore, c: Call, z: Sizes)
    requires Healthy(KindOf(z), MeaningOf(), s)
    ensures Produces(KindOf(z), MeaningOf(), s, c)
  {
    hide ValidStore, Produce, Latest, FindItem, NextItems, Lawful, PlansDistinct, RunLaw, NextStore, ValidRun;
    if Produce(s, c, z).Ok? {
      LatestIsCurrent(KindOf(z), s, RunId(Produce(s, c, z).value));
      if c.request.NewRun? {
        CreateLawful(s, c, z);
      } else {
        ChangeLawful(s, c, z);
      }
    }
  }

  lemma StoreDistinct(s: RunStore, z: Sizes)
    requires ValidStore(KindOf(z), s)
    ensures forall i, j :: 0 <= i < j < |s.items| ==> RunId(s.items[i]) != RunId(s.items[j])
  {
    hide ValidLog, ItemsAreLatest, Produce, ValidRun;
  }

  /** The run store is one that the generic repository can keep. */
  lemma RunStoreWellMade(z: Sizes)
    requires z.storeFits(Empty())
    ensures WellMade(KindOf(z), MeaningOf())
  {
    hide Produces, ValidStore, Lawful, Perform, ValidRun, Produce, RunLaw;
    forall s: RunStore, c: Call | Healthy(KindOf(z), MeaningOf(), s) ensures Produces(KindOf(z), MeaningOf(), s, c) {
      ProducesLawfully(s, c, z);
    }
  }

  /** An accepted request is stored exactly when run and store fit: the log validator never rejects it. */
  lemma AcceptedIsStored(s: RunStore, c: Call, z: Sizes)
    requires ValidStore(KindOf(z), s) && FindOperation(s.operations, c.operationId).None? && Produce(s, c, z).Ok?
    ensures var r := Produce(s, c, z).value;
            Decide(KindOf(z), s, c).Commit? <==> z.runFits(r) && z.storeFits(NextStore(KindOf(z), s, c, r))
  {
    hide ValidStore, Produce, Perform, CreateRun, ValidRun, FindItem, HasItem, NextItems, TimedStep, SnapshotFollows;
    var r := Produce(s, c, z).value;
    var i := FoundItem(RunId, s.items, RunId(r));
    if c.request.NewRun? {
      CreateMakes(s, c, z);
    } else {
      ChangeApplies(s, c, z);
    }
    NextItemsSize(KindOf(z), s, r);
    StoredWhenItFits(KindOf(z), s, c, r);
  }

  // ---------------------------------------------------------------- runs over the life of a repository

  /** A lawful trail is an execution: its first snapshot is the created run, its last what the steps made of it. */
  lemma {:induction false} TrailIsExecution(trail: seq<Operation<Run, Request>>) returns (o: Origin, events: seq<Event>)
    requires LawfulTrail(MeaningOf(), trail) && trail != []
    ensures Reaches(o, events, trail[|trail| - 1].item) && |trail| == 1 + |events|
    decreases |trail|
  {
    hide Perform, CreateRun, TimedStep;
    var n := |trail| - 1;
    if n == 0 {
      assert RunLaw(trail[0].request, trail[0].at, None, trail[0].item);
      o, events := trail[0].request.origin.(id := trail[0].item.id, at := trail[0].at), [];
    } else {
      assert RunLaw(trail[n].request, trail[n].at, Some(trail[n - 1].item), trail[n].item);
      var shorter: seq<Event>;
      o, shorter := TrailIsExecution(trail[..n]);
      events := shorter + [Event(TimedStep(trail[n].request.step, trail[n].at), trail[n].at)];
      assert events[..|events| - 1] == shorter;
    }
  }

  /** The store on disk after any history of calls, write outcomes and restarts, from an empty directory. */
  function StoreAfter(z: Sizes, moves: seq<Repo.Move<Call>>): RunStore {
    Repo.View(Repo.After(Repo.State(DurableJson.Absent, None, false), StoreLogic(KindOf(z)), moves).disk, Empty())
  }

  lemma StoreAfterHealthy(z: Sizes, moves: seq<Repo.Move<Call>>)
    requires z.storeFits(Empty())
    ensures Healthy(KindOf(z), MeaningOf(), StoreAfter(z, moves))
  {
    hide Perform, ValidRun, KindOf, MeaningOf, Repo.After, ValidStore;
    RunStoreWellMade(z);
    HealthyAfter(KindOf(z), MeaningOf(), moves);
  }

  /** However a store came about, every run it holds has a frontier and one logged operation for each of
      its at most 4n + 2 revisions. */
  lemma StoredRun(z: Sizes, moves: seq<Repo.Move<Call>>, id: string) returns (k: nat)
    requires z.storeFits(Empty()) && FindItem(RunId, StoreAfter(z, moves).items, id).Some?
    ensures var s := StoreAfter(z, moves);
            var r := FindItem(RunId, s.items, id).value;
            && FrontierAt(r, k) && |Trail(KindOf(z), s.operations, id)| == r.revision <= 4 * |r.tasks| + 2
  {
    hide Healthy, ValidStore, LawfulTrail, FindItem, Trail, Latest, StoreAfter, Lawful, Reaches, FrontierAt,
      Perform, ValidRun, CreateRun;
    var s := StoreAfter(z, moves);
    StoreAfterHealthy(z, moves);
    HealthyTrail(KindOf(z), MeaningOf(), s, id);
    var o, events := TrailIsExecution(Trail(KindOf(z), s.operations, id));
    k := RunFrontier(o, events, FindItem(RunId, s.items, id).value);
  }

  /** No two stored runs ever carry out the same plan definition, although the validator does not look for that. */
  lemma OneRunForEachPlan(z: Sizes, moves: seq<Repo.Move<Call>>)
    requires z.storeFits(Empty())
    ensures PlansDistinct(StoreAfter(z, moves).items)
  {
    hide ValidStore, Lawful, StoreAfter, PlansDistinct, Perform, ValidRun, KindOf, RunLaw;
    StoreAfterHealthy(z, moves);
  }
}
