/** The repository of Planning Runs: the run store inside the generic repository. */
module PlanningRepository {
  import opened Errors
  import opened Wrappers
  import opened DurableJson
  import opened PlanningRuns
  import opened PlanningSteps
  import opened PlanningStore
  import opened Repositories
  import Admission = PlanningAdmission
  import Bound = PlanningBound

  /** A call together with the time and the fresh id it is served with. */
  datatype Timed = Timed(call: Admission.Call, env: Admission.Env)

  /** The answer to a call: the store revision and the run it produced. */
  datatype Answer = Answer(storeRevision: int, run: Run)

  function Entries(ops: seq<Operation>): seq<Entry<Request, Answer>> {
    seq(|ops|, i requires 0 <= i < |ops| => Entry(ops[i].id, ops[i].request, Answer(ops[i].storeRevision, ops[i].run)))
  }

  function LastRun(ops: seq<Operation>): Option<Run> {
    if ops == [] then None else Some(ops[|ops| - 1].run)
  }

  function Decided(s: Store, c: Timed, z: Sizes): Verdict<Store, Answer> {
    if s.revision < 0 then Refuse(PlanningStoreRevisionInvalid)
    else match Admission.Decide(s, c.call, c.env, z)
         case Replay(revision, run) => Replay(Answer(revision, run))
         case Refuse(code) => Refuse(code)
         case Commit(next) =>
           match LastRun(next.operations)
           case None => Refuse(PlanningStoreInvalid)
           case Some(run) => Commit(next, Answer(next.revision, run))
  }

  function StoreLogic(z: Sizes): Logic<Store, Timed, Request, Answer> {
    Logic(EMPTY_STORE, (s: Store) => Entries(s.operations), (c: Timed) => c.call.operationId, (c: Timed) => Admission.RequestOf(c.call),
          (s: Store, c: Timed) => Decided(s, c, z))
  }

  lemma {:induction false} LookupEntries(ops: seq<Operation>, id: string)
    ensures match Admission.FindOperation(ops, id)
            case None => Lookup(Entries(ops), id).None?
            case Some(op) => op.id == id && Lookup(Entries(ops), id) == Some(Entry(id, op.request, Answer(op.storeRevision, op.run)))
  {
    if ops != [] {
      assert Entries(ops)[1..] == Entries(ops[1..]);
      LookupEntries(ops[1..], id);
    }
  }

  lemma EmptyHealthy(z: Sizes)
    ensures Admission.Healthy(EMPTY_STORE, z)
  {
    hide Admission.LawfulOperation, OperationFollows, CurrentRun, ValidRun;
  }

  lemma StoreAnswers(s: Store, c: Timed, z: Sizes)
    requires Admission.Healthy(s, z)
    ensures Answers(StoreLogic(z), (s: Store) => Admission.Healthy(s, z), s, c)
  {
    hide Admission.Healthy, Admission.DecideCreate, Admission.DecideStep, Admission.FindOperation;
    Revision(s, z);
    LookupEntries(s.operations, c.call.operationId);
    if Admission.FindOperation(s.operations, c.call.operationId).None? {
      NoReplay(s, c, z);
      if Admission.Decide(s, c.call, c.env, z).Commit? {
        var next := Admission.Decide(s, c.call, c.env, z).next;
        var op := Admission.CommitHealthy(s, c.call, c.env, z, next);
        CommittedLog(s, c, op, next, z);
      }
    }
  }

  lemma Revision(s: Store, z: Sizes)
    requires Admission.Healthy(s, z)
    ensures s.revision == |s.operations|
  {
    hide ValidStore, Admission.Lawful;
    Admission.StoreRevision(s, z);
  }

  lemma NoReplay(s: Store, c: Timed, z: Sizes)
    requires Admission.FindOperation(s.operations, c.call.operationId).None?
    ensures !Admission.Decide(s, c.call, c.env, z).Replay?
  {
    hide ValidStore, Admission.NextStore, Perform, CreateRun, Admission.RoomToCreate;
  }

  lemma CommittedLog(s: Store, c: Timed, op: Operation, next: Store, z: Sizes)
    requires Admission.CommitsCall(s, c.call, op, next, z)
    ensures LastRun(next.operations) == Some(op.run)
    ensures Entries(next.operations)
            == Entries(s.operations) + [Entry(c.call.operationId, Admission.RequestOf(c.call), Answer(next.revision, op.run))]
  {
    hide Admission.Healthy, OperationFollows;
    Revision(next, z);
    LastRevision(next, s.operations, op, z);
  }

  lemma LastRevision(s: Store, before: seq<Operation>, op: Operation, z: Sizes)
    requires Admission.Healthy(s, z) && s.operations == before + [op]
    ensures op.storeRevision == |s.operations|
  {
    hide Admission.Lawful, RunsAreLatest, DistinctRuns, Reservable, WithinCapacity, ValidRun, LatestRun, Follows;
    assert OperationFollows(s.operations[|before|], s.operations[..|before|], z);
  }

  /** The run store is a store the generic repository can keep. */
  lemma StoreWellBehaved(z: Sizes)
    ensures WellBehaved(StoreLogic(z), (s: Store) => Admission.Healthy(s, z))
  {
    hide Admission.Healthy, Answers, Decided, Perform, ValidStore;
    EmptyHealthy(z);
    var l, inv := StoreLogic(z), (s: Store) => Admission.Healthy(s, z);
    forall s: Store, c: Timed | inv(s) ensures Answers(l, inv, s, c) {
      StoreAnswers(s, c, z);
    }
  }

  /** The state of a repository started on a directory without a store file. */
  const FRESH: State<Store> := State(Absent, None, false)

  /** After any history of calls, write outcomes and restarts: memory equals the disk or the
      repository is poisoned; the current runs are exactly the last snapshots of the log; and each run
      was reached by accepted steps, one logged operation for each. */
  lemma RepositorySafe(z: Sizes, moves: seq<Move<Timed>>)
    ensures var st := After(FRESH, StoreLogic(z), moves);
            && (st.memory == None || (!st.poisoned && st.memory == Some(View(st.disk, EMPTY_STORE))))
            && RunsAreLatest(View(st.disk, EMPTY_STORE).runs, View(st.disk, EMPTY_STORE).operations, z)
            && forall r :: r in View(st.disk, EMPTY_STORE).runs ==> ReachedAsLogged(View(st.disk, EMPTY_STORE), r)
  {
    hide WellBehaved, Sound, Handle, Admission.Healthy, RunsAreLatest, ReachedAsLogged, StoreLogic;
    var inv := (s: Store) => Admission.Healthy(s, z);
    var st := After(FRESH, StoreLogic(z), moves);
    StoreWellBehaved(z);
    FreshSound(z);
    HistorySound(FRESH, StoreLogic(z), inv, moves);
    SoundStore(st, z);
    var s := View(st.disk, EMPTY_STORE);
    forall r | r in s.runs ensures ReachedAsLogged(s, r) {
      RunReached(s, z, r);
    }
  }

  /** The run was reached by as many accepted steps as the log holds operations for it. */
  ghost predicate ReachedAsLogged(s: Store, r: Run) {
    exists o, events :: Reaches(o, events, r) && CountOps(s.operations, r.id) == 1 + |events| == r.revision
  }

  lemma FreshSound(z: Sizes)
    ensures Sound(FRESH, StoreLogic(z), (s: Store) => Admission.Healthy(s, z))
  {
    hide Admission.Healthy, Decided;
    EmptyHealthy(z);
  }

  lemma SoundStore(st: State<Store>, z: Sizes)
    requires Sound(st, StoreLogic(z), (s: Store) => Admission.Healthy(s, z))
    ensures Admission.Healthy(View(st.disk, EMPTY_STORE), z) && RunsAreLatest(View(st.disk, EMPTY_STORE).runs, View(st.disk, EMPTY_STORE).operations, z)
    ensures st.memory == None || (!st.poisoned && st.memory == Some(View(st.disk, EMPTY_STORE)))
  {
    hide Admission.Lawful, ValidLog, RunsAreLatest, DistinctRuns, Reservable, WithinCapacity, Decided;
  }

  lemma RunReached(s: Store, z: Sizes, r: Run)
    requires Admission.Healthy(s, z) && r in s.runs
    ensures ReachedAsLogged(s, r)
  {
    hide Admission.Lawful, ValidLog, DistinctRuns, Reservable, WithinCapacity, ValidRun, LatestRun, Reaches,
      RunFits, RunSlotBytes, Bound.PlanningLength.Potential, Bound.PlanningLength.Shaped;
    assert CurrentRun(r, s.operations, z);
    var o, events := Admission.LogReaches(s.operations, r.id, r);
    Bound.RunLength(o, events, r);
  }

  /** A step of a run whose write succeeded, or was committed without being synced, is never applied a
      second time: a retry after any history leaves the log alone and repeats the first answer. */
  lemma StepAppliedOnce(z: Sizes, before: seq<Move<Timed>>, c: Timed, env: Env, between: seq<Move<Timed>>, again: Timed, env': Env)
    requires var (_, reply) := Handle(After(FRESH, StoreLogic(z), before), StoreLogic(z), c, env); reply.Applied? || reply.Uncertain?
    requires again.call.operationId == c.call.operationId && Admission.RequestOf(again.call) == Admission.RequestOf(c.call)
    ensures var (first, reply) := Handle(After(FRESH, StoreLogic(z), before), StoreLogic(z), c, env);
            var later := After(first, StoreLogic(z), between);
            var (last, answer) := Handle(later, StoreLogic(z), again, env');
            && LogOf(last, StoreLogic(z)) == LogOf(later, StoreLogic(z))
            && (answer.Replayed? || answer.Unavailable?)
            && (reply.Applied? && answer.Replayed? ==> answer.reply == reply.reply)
  {
    hide WellBehaved, Sound, Handle, Admission.Healthy, Decided, LogOf;
    var inv := (s: Store) => Admission.Healthy(s, z);
    StoreWellBehaved(z);
    FreshSound(z);
    HistorySound(FRESH, StoreLogic(z), inv, before);
    ExactlyOnce(After(FRESH, StoreLogic(z), before), StoreLogic(z), inv, c, env, between, again, env');
  }
}
