/** The bound on the length of a Delivery Run is attained, whatever its tasks. */
module DeliveryLongest {
  import opened Wrappers
  import opened DeliveryRuns

  const LOST := "The mission could not be confirmed."
  const NOTE := "Checked by the operator."
  const REASON := "The run is being stopped."

  // ---------------------------------------------------------------- what is done for each task

  /** Two digits tell the tasks of a run apart. */
  function Numbered(prefix: string, i: nat): (id: string)
    requires i < 100
    ensures id != ""
  {
    prefix + ["0123456789"[i / 10], "0123456789"[i % 10]]
  }

  lemma NumbersDiffer(prefix: string, i: nat, j: nat)
    requires i < 100 && j < 100 && i != j
    ensures Numbered(prefix, i) != Numbered(prefix, j)
  {
    var digits := "0123456789";
    assert Numbered(prefix, i)[|prefix|] == digits[i / 10] && Numbered(prefix, i)[|prefix| + 1] == digits[i % 10];
    assert Numbered(prefix, j)[|prefix|] == digits[j / 10] && Numbered(prefix, j)[|prefix| + 1] == digits[j % 10];
    assert forall a, b :: 0 <= a < b < 10 ==> digits[a] != digits[b];
  }

  function Mission(i: nat): string
    requires i < 100
  {
    Numbered("mission-task-00", i)
  }

  function RecordId(i: nat): string
    requires i < 100
  {
    Numbered("verification-task-", i)
  }

  function Digest(o: Origin, i: nat): string {
    o.start.digest + seq(i + 1, _ => 'x')
  }

  function Expected(o: Origin, i: nat): string {
    if i == 0 then o.start.digest else Digest(o, i - 1)
  }

  lemma DigestChanges(o: Origin, i: nat)
    ensures Digest(o, i) != Expected(o, i)
  {
    assert |Digest(o, i)| == |o.start.digest| + i + 1;
    if i > 0 {
      assert |Digest(o, i - 1)| == |o.start.digest| + i;
    }
  }

  function Captures(o: Origin, i: nat): Baseline {
    Baseline(o.start.identity, Digest(o, i), o.at)
  }

  function Outcomes(ids: seq<string>, outcome: CriterionOutcome): seq<Criterion> {
    seq(|ids|, j requires 0 <= j < |ids| => Criterion(ids[j], outcome))
  }

  lemma OutcomesCover(ids: seq<string>, outcome: CriterionOutcome)
    requires Distinct(ids) && ids != []
    ensures CriteriaCover(Outcomes(ids, outcome), ids) && (AllPassed(Outcomes(ids, outcome)) <==> outcome == Passed)
  {
    assert Outcomes(ids, outcome)[0].outcome == outcome;
  }

  // ---------------------------------------------------------------- the run at every point of the execution

  /** A task waits, is put in doubt, linked, captured, and at last refused. */
  datatype Stage = Waiting | Doubtful | Linked | Capturing | Refused

  function Rank(s: Stage): nat {
    match s
    case Waiting => 0
    case Doubtful => 1
    case Linked => 2
    case Capturing => 3
    case Refused => 4
  }

  predicate Startable(o: Origin) {
    CreateRun(o).Ok?
  }

  function TaskAt(o: Origin, i: nat, s: Stage): Task
    requires i < |o.tasks| <= MAX_TASKS
  {
    var t := NewTask(o, i).(expected := Expected(o, i));
    match s
    case Waiting => t
    case Doubtful => t.(state := TaskReconcile)
    case Linked => t.(state := MissionLinked, missionId := Mission(i))
    case Capturing => t.(state := Captured, missionId := Mission(i), baseline := Some(Captures(o, i)))
    case Refused => t.(state := Failed, missionId := Mission(i), baseline := Some(Captures(o, i)), verificationId := RecordId(i))
  }

  function DoneTask(o: Origin, i: nat): Task
    requires i < |o.tasks| <= MAX_TASKS
  {
    TaskAt(o, i, Refused).(state := Verified)
  }

  function OutboxAt(o: Origin, i: nat, s: Stage): Outbox
    requires i < |o.tasks| <= MAX_TASKS
  {
    var x := NewOutbox(o, i).(state := Ready);
    match s
    case Waiting => x
    case Doubtful => x.(state := OutboxReconcile, error := LOST)
    case _ => x.(state := Applied, missionId := Mission(i))
  }

  function RecordAt(o: Origin, i: nat, passed: bool): Verification
    requires i < |o.tasks| <= MAX_TASKS
  {
    Verification(RecordId(i), o.tasks[i].stepId, o.planDigest, Mission(i),
                 Outcomes(Unique(o.tasks[i].acceptanceIds), if passed then Passed else NotPassed), passed, Digest(o, i), Digest(o, i), o.at)
  }

  function TasksAt(o: Origin, k: nat, s: Stage): seq<Task>
    requires k < |o.tasks| <= MAX_TASKS
  {
    seq(|o.tasks|, i requires 0 <= i < |o.tasks| => if i < k then DoneTask(o, i) else if i == k then TaskAt(o, k, s) else NewTask(o, i))
  }

  function OutboxesAt(o: Origin, k: nat, s: Stage): seq<Outbox>
    requires k < |o.tasks| <= MAX_TASKS
  {
    seq(|o.tasks|, i requires 0 <= i < |o.tasks| =>
          if i < k then OutboxAt(o, i, Refused) else if i == k then OutboxAt(o, k, s) else NewOutbox(o, i))
  }

  function RecordsAt(o: Origin, k: nat, s: Stage): seq<Verification>
    requires k < |o.tasks| <= MAX_TASKS
  {
    seq(k, i requires 0 <= i < k => RecordAt(o, i, true)) + if s == Refused then [RecordAt(o, k, false)] else []
  }

  function ConditionAt(k: nat, s: Stage): Condition {
    match s
    case Waiting => if k == 0 then Preparing else Active
    case Doubtful => Reconciling
    case Linked => Active
    case Capturing => AwaitingVerification
    case Refused => RunBlocked
  }

  function BlockerAt(s: Stage): string {
    if s == Doubtful then LOST else if s == Refused then NOTE else ""
  }

  /** The first k tasks are verified, and the next one is at this stage. */
  function RunAt(o: Origin, k: nat, s: Stage): Run
    requires k < |o.tasks| <= MAX_TASKS
  {
    Run(o.id, 1 + 4 * k + Rank(s), o.planId, o.planRevision, o.planDigest, o.start, ConditionAt(k, s),
        TasksAt(o, k, s), OutboxesAt(o, k, s), [], RecordsAt(o, k, s), ExpectedLevel(TasksAt(o, k, s)), o.at, None, BlockerAt(s), o.at, o.at)
  }

  // ---------------------------------------------------------------- all of these are valid

  lemma StartFacts(o: Origin)
    requires Startable(o)
    ensures o.id != "" && o.planRevision >= 1 && 1 <= |o.tasks| <= MAX_TASKS
    ensures forall i :: 0 <= i < |o.tasks| ==> o.tasks[i].stepId != "" && o.tasks[i].acceptanceIds != []
    ensures forall i, j :: 0 <= i < j < |o.tasks| ==> o.tasks[i].stepId != o.tasks[j].stepId
  {
    hide CreateRun;
    CreateAccepted(o);
  }

  lemma TaskValid(o: Origin, k: nat, s: Stage, i: nat)
    requires Startable(o) && i < |o.tasks| && k < |o.tasks| <= MAX_TASKS
    ensures ValidTask(RunAt(o, k, s).tasks[i], RunAt(o, k, s)) && ValidOutbox(RunAt(o, k, s).outbox[i], RunAt(o, k, s).tasks[i])
  {
    hide Startable, Outcomes, Numbered, ExpectedLevel, Digest, Unique;
    StartFacts(o);
    var r := RunAt(o, k, s);
    if i < k {
      assert r.records[i].id == RecordId(i);
    } else if i == k && s == Refused {
      assert r.records[k].id == RecordId(k);
    }
  }

  /** What is at each place of the run. */
  lemma Places(o: Origin, k: nat, s: Stage, i: nat)
    requires k < |o.tasks| <= MAX_TASKS && i < |o.tasks|
    ensures |TasksAt(o, k, s)| == |OutboxesAt(o, k, s)| == |o.tasks|
    ensures TasksAt(o, k, s)[i] == if i < k then DoneTask(o, i) else if i == k then TaskAt(o, k, s) else NewTask(o, i)
    ensures OutboxesAt(o, k, s)[i] == if i < k then OutboxAt(o, i, Refused) else if i == k then OutboxAt(o, k, s) else NewOutbox(o, i)
  {
    hide TaskAt, OutboxAt, DoneTask, NewTask, NewOutbox;
  }

  lemma PlaceFacts(o: Origin, k: nat, s: Stage, i: nat)
    requires k < |o.tasks| <= MAX_TASKS && i < |o.tasks|
    ensures |TasksAt(o, k, s)| == |OutboxesAt(o, k, s)| == |o.tasks|
    ensures var (t, x) := (TasksAt(o, k, s)[i], OutboxesAt(o, k, s)[i]);
            && (t.state == Verified <==> i < k) && (i < k ==> t.baseline == Some(Captures(o, i))) && t.state != TaskAborted
              && x.state != Canceled
            && t.expected == (if i == 0 || i <= k then Expected(o, i) else "") && (i > k ==> x.state == Held)
            && (i == k && t.state == Pending ==> x.state == Ready) && (i < k ==> x.state == Applied)
  {
    hide Numbered, Digest, Unique, TasksAt, OutboxesAt;
    Places(o, k, s, i);
  }

  lemma SequenceValid(o: Origin, k: nat, s: Stage, i: nat)
    requires k < |o.tasks| <= MAX_TASKS && i < |o.tasks|
    ensures ValidSequence(RunAt(o, k, s), i)
  {
    hide Digest, TasksAt, OutboxesAt, RecordsAt, ExpectedLevel;
    PlaceFacts(o, k, s, 0);
    PlaceFacts(o, k, s, i);
    if i > 0 {
      PlaceFacts(o, k, s, i - 1);
    }
  }

  lemma RecordsValid(o: Origin, k: nat, s: Stage, i: nat)
    requires Startable(o) && k < |o.tasks| <= MAX_TASKS && i < |RunAt(o, k, s).records|
    ensures ValidRecord(RunAt(o, k, s).records[i], RunAt(o, k, s))
  {
    hide Startable, Numbered, ExpectedLevel, Digest, Outcomes, CreateRun;
    StartFacts(o);
    var r := RunAt(o, k, s);
    OutcomesCover(r.tasks[i].input.acceptanceIds, if i < k then Passed else NotPassed);
    assert r.tasks[i].input.stepId == r.records[i].stepId;
  }

  lemma RecordIdsDiffer(o: Origin, k: nat, s: Stage)
    requires k < |o.tasks| <= MAX_TASKS
    ensures forall i, j :: 0 <= i < j < |RecordsAt(o, k, s)| ==> RecordsAt(o, k, s)[i].id != RecordsAt(o, k, s)[j].id
    ensures s != Refused ==> forall i :: 0 <= i < |RecordsAt(o, k, s)| ==> RecordsAt(o, k, s)[i].id != RecordId(k)
  {
    hide Numbered, Outcomes, Digest, Unique;
    forall i, j | 0 <= i < j <= k ensures RecordId(i) != RecordId(j) {
      NumbersDiffer("verification-task-", i, j);
    }
  }

  lemma StepIdsDiffer(o: Origin, k: nat, s: Stage)
    requires Startable(o) && k < |o.tasks| <= MAX_TASKS
    ensures Distinct(StepIds(TasksAt(o, k, s)))
    ensures forall i :: 0 <= i < |o.tasks| ==> TasksAt(o, k, s)[i].input.stepId == o.tasks[i].stepId
  {
    hide Startable, Numbered, Outcomes, Digest, Unique, TasksAt, OutboxesAt;
    StartFacts(o);
    Places(o, k, s, 0);
    forall i | 0 <= i < |o.tasks| ensures TasksAt(o, k, s)[i].input.stepId == o.tasks[i].stepId {
      Places(o, k, s, i);
    }
  }

  lemma OnePending(o: Origin, k: nat, s: Stage)
    requires k < |o.tasks| <= MAX_TASKS
    ensures |TasksAt(o, k, s)| == |OutboxesAt(o, k, s)| == |o.tasks| && TasksAt(o, k, s)[k] == TaskAt(o, k, s)
    ensures forall i, j :: 0 <= i < j < |o.tasks| ==>
              !(OutboxesAt(o, k, s)[i].state in {Ready, OutboxReconcile} && OutboxesAt(o, k, s)[j].state in {Ready, OutboxReconcile})
  {
    hide *;
    Places(o, k, s, k);
    forall i | 0 <= i < |o.tasks| && i != k ensures OutboxesAt(o, k, s)[i].state in {Applied, Held} {
      PlaceFacts(o, k, s, i);
    }
  }

  lemma RunAtValid(o: Origin, k: nat, s: Stage)
    requires Startable(o) && k < |o.tasks| <= MAX_TASKS
    ensures ValidRun(RunAt(o, k, s))
  {
    hide Startable, ValidTask, ValidOutbox, ValidSequence, ValidRecord, Numbered, Outcomes, Digest, Unique,
      ExpectedLevel, Distinct, StepIds, TasksAt, OutboxesAt, RecordsAt;
    StartFacts(o);
    StepIdsDiffer(o, k, s);
    RecordIdsDiffer(o, k, s);
    OnePending(o, k, s);
    var r := RunAt(o, k, s);
    forall i | 0 <= i < |r.tasks| ensures ValidTask(r.tasks[i], r) && ValidOutbox(r.outbox[i], r.tasks[i]) && ValidSequence(r, i) {
      TaskValid(o, k, s, i);
      SequenceValid(o, k, s, i);
    }
    forall i | 0 <= i < |r.records| ensures ValidRecord(r.records[i], r) {
      RecordsValid(o, k, s, i);
    }
  }

  // ---------------------------------------------------------------- one task

  /** The step that takes a task from one stage to the next. */
  function StepAt(o: Origin, k: nat, s: Stage, passes: bool): Step
    requires k < |o.tasks| <= MAX_TASKS && s != Refused
  {
    var t := TaskAt(o, k, s);
    var id := o.tasks[k].stepId;
    match s
    case Waiting => RequireReconcile(id, t.bindingKey, LOST)
    case Doubtful => LinkMission(id, t.bindingKey, Mission(k))
    case Linked => Capture(id, Mission(k), Captures(o, k), [])
    case Capturing =>
      Verify(id, RecordId(k), Mission(k), Captures(o, k), Outcomes(t.input.acceptanceIds, if passes then Passed else NotPassed), [], NOTE)
  }

  function NextStage(s: Stage): Stage {
    match s
    case Waiting => Doubtful
    case Doubtful => Linked
    case Linked => Capturing
    case _ => Refused
  }

  lemma {:induction false} FoundAt(tasks: seq<Task>, k: nat)
    requires k < |tasks| && forall i, j :: 0 <= i < j < |tasks| ==> tasks[i].input.stepId != tasks[j].input.stepId
    ensures FindTask(tasks, tasks[k].input.stepId) == Some(k)
  {
    if k > 0 {
      FoundAt(tasks[1..], k - 1);
    }
  }

  lemma TaskFound(o: Origin, k: nat, s: Stage)
    requires Startable(o) && k < |o.tasks| <= MAX_TASKS
    ensures FindTask(RunAt(o, k, s).tasks, o.tasks[k].stepId) == Some(k)
  {
    hide Startable, FindTask, TaskAt, DoneTask;
    StartFacts(o);
    StepIdsDiffer(o, k, s);
    FoundAt(TasksAt(o, k, s), k);
  }

  lemma TasksMove(o: Origin, k: nat, s: Stage, s': Stage)
    requires k < |o.tasks| <= MAX_TASKS
    ensures TasksAt(o, k, s)[k := TaskAt(o, k, s')] == TasksAt(o, k, s')
            && OutboxesAt(o, k, s)[k := OutboxAt(o, k, s')] == OutboxesAt(o, k, s')
  {
    hide TaskAt, OutboxAt, DoneTask;
  }

  lemma SameLevel(o: Origin, k: nat, s: Stage)
    requires k < |o.tasks| <= MAX_TASKS && s in {Waiting, Doubtful}
    ensures ExpectedLevel(TasksAt(o, k, NextStage(s))) == ExpectedLevel(TasksAt(o, k, s))
  {
    hide Digest, Numbered, Unique;
    var old_, new_ := TasksAt(o, k, s), TasksAt(o, k, NextStage(s));
    assert old_[k] == TaskAt(o, k, s) && new_[k] == TaskAt(o, k, NextStage(s));
    assert old_[k].state != Verified && new_[k].state != Verified;
    assert forall i :: 0 <= i < |o.tasks| && i != k ==> old_[i] == new_[i];
    assert old_[k].baseline.None? && new_[k].baseline.None?;
    assert forall i :: 0 <= i < |o.tasks| ==> old_[i].baseline == new_[i].baseline;
  }

  predicate Leads(o: Origin, k: nat, s: Stage)
    requires k < |o.tasks| <= MAX_TASKS && s != Refused
  {
    var next := Mutated(RunAt(o, k, s), StepAt(o, k, s, false), o.at);
    next.Ok? && Stamped(next.value, o.at) == RunAt(o, k, NextStage(s))
  }

  lemma WaitingLeads(o: Origin, k: nat)
    requires Startable(o) && k < |o.tasks| <= MAX_TASKS
    ensures Leads(o, k, Waiting)
  {
    hide Startable, FindTask, Digest, Numbered, Unique, ExpectedLevel, Outcomes, TasksAt, OutboxesAt;
    TaskFound(o, k, Waiting);
    TasksMove(o, k, Waiting, Doubtful);
    TaskHere(o, k, Waiting);
    SameLevel(o, k, Waiting);
  }

  lemma DoubtfulLeads(o: Origin, k: nat)
    requires Startable(o) && k < |o.tasks| <= MAX_TASKS
    ensures Leads(o, k, Doubtful)
  {
    hide Startable, FindTask, Digest, Numbered, Unique, ExpectedLevel, Outcomes, TasksAt, OutboxesAt;
    TaskFound(o, k, Doubtful);
    TasksMove(o, k, Doubtful, Linked);
    TaskHere(o, k, Doubtful);
    SameLevel(o, k, Doubtful);
  }

  lemma LinkedLeads(o: Origin, k: nat)
    requires Startable(o) && k < |o.tasks| <= MAX_TASKS
    ensures Leads(o, k, Linked)
  {
    hide Startable, FindTask, Digest, Numbered, Unique, ExpectedLevel, Outcomes, TasksAt, OutboxesAt;
    TaskFound(o, k, Linked);
    TasksMove(o, k, Linked, Capturing);
    TaskHere(o, k, Linked);
    DigestChanges(o, k);
    assert OutboxAt(o, k, Linked) == OutboxAt(o, k, Capturing);
  }

  lemma CapturingLeads(o: Origin, k: nat)
    requires Startable(o) && k < |o.tasks| <= MAX_TASKS
    ensures Leads(o, k, Capturing)
  {
    hide Startable, FindTask, Digest, Numbered, Unique, ExpectedLevel, Outcomes, AllPassed, CriteriaCover, TasksAt,
      OutboxesAt;
    StartFacts(o);
    TaskFound(o, k, Capturing);
    TasksMove(o, k, Capturing, Refused);
    TaskHere(o, k, Capturing);
    OutcomesCover(TaskAt(o, k, Capturing).input.acceptanceIds, NotPassed);
    RecordIdsDiffer(o, k, Capturing);
    assert OutboxAt(o, k, Capturing) == OutboxAt(o, k, Refused);
  }

  /** Every stage leads to the next; the last step fails the verification. */
  lemma StageStep(o: Origin, k: nat, s: Stage)
    requires Startable(o) && k < |o.tasks| <= MAX_TASKS && s != Refused
    ensures Perform(RunAt(o, k, s), StepAt(o, k, s, false), o.at) == Ok(RunAt(o, k, NextStage(s)))
  {
    hide Startable, ValidRun, Mutated, RunAt, StepAt;
    RunAtValid(o, k, s);
    RunAtValid(o, k, NextStage(s));
    match s {
      case Waiting => WaitingLeads(o, k);
      case Doubtful => DoubtfulLeads(o, k);
      case Linked => LinkedLeads(o, k);
      case Capturing => CapturingLeads(o, k);
    }
  }

  lemma TaskHere(o: Origin, k: nat, s: Stage)
    requires k < |o.tasks| <= MAX_TASKS
    ensures TasksAt(o, k, s)[k] == TaskAt(o, k, s) && OutboxesAt(o, k, s)[k] == OutboxAt(o, k, s)
    ensures |TasksAt(o, k, s)| == |OutboxesAt(o, k, s)| == |o.tasks|
  {
    hide TaskAt, OutboxAt, DoneTask;
  }

  // ---------------------------------------------------------------- from task to task

  lemma TaskPasses(o: Origin, k: nat)
    requires Startable(o) && k + 1 < |o.tasks| <= MAX_TASKS
    ensures Perform(RunAt(o, k, Capturing), StepAt(o, k, Capturing, true), o.at) == Ok(RunAt(o, k + 1, Waiting))
  {
    hide Startable, ValidRun, Mutated, RunAt, StepAt;
    RunAtValid(o, k, Capturing);
    RunAtValid(o, k + 1, Waiting);
    PassedCopy(o, k);
  }

  lemma PassedCopy(o: Origin, k: nat)
    requires Startable(o) && k + 1 < |o.tasks| <= MAX_TASKS
    ensures var next := Mutated(RunAt(o, k, Capturing), StepAt(o, k, Capturing, true), o.at);
            next.Ok? && Stamped(next.value, o.at) == RunAt(o, k + 1, Waiting)
  {
    hide Startable, FindTask, Digest, Numbered, Unique, ExpectedLevel, Outcomes, AllPassed, CriteriaCover, TasksAt,
      OutboxesAt, RecordsAt;
    StartFacts(o);
    TaskFound(o, k, Capturing);
    TaskHere(o, k, Capturing);
    OutcomesCover(TaskAt(o, k, Capturing).input.acceptanceIds, Passed);
    RecordIdsDiffer(o, k, Capturing);
    TasksPass(o, k);
    RecordsPass(o, k);
  }

  lemma TasksPass(o: Origin, k: nat)
    requires k + 1 < |o.tasks| <= MAX_TASKS
    ensures TasksAt(o, k, Capturing)[k + 1] == NewTask(o, k + 1) && OutboxesAt(o, k, Capturing)[k + 1] == NewOutbox(o, k + 1)
    ensures TasksAt(o, k, Capturing)[k := DoneTask(o, k)][k + 1 := TaskAt(o, k + 1, Waiting)] == TasksAt(o, k + 1, Waiting)
    ensures OutboxesAt(o, k, Capturing)[k + 1 := OutboxAt(o, k + 1, Waiting)] == OutboxesAt(o, k + 1, Waiting)
    ensures TaskAt(o, k + 1, Waiting) == NewTask(o, k + 1).(expected := Digest(o, k))
            && OutboxAt(o, k + 1, Waiting) == NewOutbox(o, k + 1).(state := Ready)
  {
    hide Numbered, Unique, Digest;
  }

  lemma RecordsPass(o: Origin, k: nat)
    requires k + 1 < |o.tasks| <= MAX_TASKS
    ensures RecordsAt(o, k + 1, Waiting) == RecordsAt(o, k, Capturing) + [RecordAt(o, k, true)]
  {
    hide RecordAt;
  }

  // ---------------------------------------------------------------- stopping

  function Stopping(o: Origin): Step {
    AbortRun(true, REASON, [Evidence("EVD-STOPPED", true, true, o.at)])
  }

  function AbortedTasks(o: Origin): seq<Task>
    requires 0 < |o.tasks| <= MAX_TASKS
  {
    var k := |o.tasks| - 1;
    TasksAt(o, k, Refused)[k := TaskAt(o, k, Refused).(state := TaskAborted)]
  }

  /** The run once its last verification failed and it was aborted. */
  function AbortedRun(o: Origin): Run
    requires 0 < |o.tasks| <= MAX_TASKS
  {
    var k := |o.tasks| - 1;
    RunAt(o, k, Refused).(revision := 4 * |o.tasks| + 2, tasks := AbortedTasks(o), condition := Aborted, blocker := REASON,
                          evidence := [Evidence("EVD-STOPPED", true, true, o.at)],
                          abort := Some(Abort(RunBlocked, REASON, ["EVD-STOPPED"], o.at)), level := ExpectedLevel(AbortedTasks(o)))
  }

  lemma AbortedTaskAt(o: Origin, i: nat)
    requires i < |o.tasks| <= MAX_TASKS
    ensures var k := |o.tasks| - 1; var r := RunAt(o, k, Refused);
            && AbortedTask(r.tasks[i]) == AbortedTasks(o)[i] && AbortedOutbox(r.tasks[i], r.outbox[i], REASON, o.at) == r.outbox[i]
            && r.outbox[i].state == Applied && AbortedTasks(o)[i].state == (if i < k then Verified else TaskAborted)
            && AbortedTasks(o)[i] == r.tasks[i].(state := AbortedTasks(o)[i].state)
  {
    hide Numbered, Unique, Digest, ExpectedLevel, Outcomes;
    var k := |o.tasks| - 1;
    var r := RunAt(o, k, Refused);
    assert r.tasks[i] == if i < k then DoneTask(o, i) else TaskAt(o, k, Refused);
    assert r.outbox[i] == OutboxAt(o, i, Refused);
  }

  lemma HowMany(o: Origin)
    requires 0 < |o.tasks| <= MAX_TASKS
    ensures |AbortedTasks(o)| == |o.tasks|
  {
    hide TaskAt, DoneTask;
  }

  lemma AbortCopy(o: Origin)
    requires 0 < |o.tasks| <= MAX_TASKS
    ensures var next := Mutated(RunAt(o, |o.tasks| - 1, Refused), Stopping(o), o.at); next.Ok? && Stamped(next.value, o.at) == AbortedRun(o)
  {
    hide ExpectedLevel, TaskAt, OutboxAt, DoneTask, AbortedTask, AbortedOutbox, RecordsAt, TasksAt, OutboxesAt,
      AbortedTasks, VerifyStep;
    var r := RunAt(o, |o.tasks| - 1, Refused);
    Places(o, |o.tasks| - 1, Refused, 0);
    assert |AbortedTasks(o)| == |o.tasks| by { HowMany(o); }
    var evidence := Stopping(o).evidence;
    assert evidence[0].review && evidence[0].applied && evidence[0].createdAt == o.at;
    forall i | 0 <= i < |o.tasks|
      ensures AbortedTask(r.tasks[i]) == AbortedTasks(o)[i] && AbortedOutbox(r.tasks[i], r.outbox[i], REASON, o.at) == r.outbox[i]
    {
      AbortedTaskAt(o, i);
    }
    assert seq(|r.tasks|, i requires 0 <= i < |r.tasks| => AbortedTask(r.tasks[i])) == AbortedTasks(o);
    assert seq(|r.outbox|, i requires 0 <= i < |r.outbox| => AbortedOutbox(r.tasks[i], r.outbox[i], REASON, o.at)) == r.outbox;
    assert seq(|evidence|, i requires 0 <= i < |evidence| => evidence[i].id) == ["EVD-STOPPED"];
    assert r.evidence + evidence == evidence;
  }

  /** Aborted, a run differs from what it was in the states of its tasks alone, among the things they are checked for. */
  predicate Stopped(r: Run, next: Run) {
    && |next.tasks| == |r.tasks| == |r.outbox| && next.outbox == r.outbox && next.records == r.records && next.start == r.start
    && next.id == r.id && next.planId == r.planId && next.planDigest == r.planDigest && r.condition != Aborted && next.condition == Aborted
    && (forall i :: 0 <= i < |r.tasks| ==>
          && r.outbox[i].state == Applied && next.tasks[i] == r.tasks[i].(state := next.tasks[i].state)
          && (if i + 1 < |r.tasks| then r.tasks[i].state == next.tasks[i].state == Verified else next.tasks[i].state == TaskAborted))
  }

  lemma StoppedTask(r: Run, next: Run, i: nat)
    requires Stopped(r, next) && i < |r.tasks| && ValidTask(r.tasks[i], r) && ValidOutbox(r.outbox[i], r.tasks[i]) && ValidSequence(r, i)
    ensures ValidTask(next.tasks[i], next) && ValidOutbox(next.outbox[i], next.tasks[i]) && ValidSequence(next, i)
  {
    hide Distinct;
    assert i > 0 ==> next.tasks[i - 1] == r.tasks[i - 1];
  }

  lemma StoppedRecord(r: Run, next: Run, v: Verification)
    requires Stopped(r, next) && ValidRecord(v, r)
    ensures ValidRecord(v, next)
  {
    hide AllPassed;
    var j :| 0 <= j < |r.tasks| && r.tasks[j].input.stepId == v.stepId && r.tasks[j].verificationId == v.id && v.missionId == r.tasks[j].missionId
             && |v.criteria| == |r.tasks[j].input.acceptanceIds| && r.tasks[j].baseline.Some?
               && v.before == r.tasks[j].baseline.value.digest
             && v.after == r.tasks[j].baseline.value.digest;
    assert next.tasks[j].input.stepId == v.stepId;
  }

  lemma StopsRun(o: Origin)
    requires 0 < |o.tasks| <= MAX_TASKS
    ensures Stopped(RunAt(o, |o.tasks| - 1, Refused), AbortedRun(o))
            && StepIds(AbortedRun(o).tasks) == StepIds(RunAt(o, |o.tasks| - 1, Refused).tasks)
  {
    hide Numbered, Outcomes, Digest, Unique, ExpectedLevel, TaskAt, OutboxAt, RecordsAt;
    var k := |o.tasks| - 1;
    var r, next := RunAt(o, k, Refused), AbortedRun(o);
    forall i | 0 <= i < |o.tasks|
      ensures r.outbox[i].state == Applied && next.tasks[i] == r.tasks[i].(state := next.tasks[i].state)
      ensures if i < k then r.tasks[i].state == next.tasks[i].state == Verified else next.tasks[i].state == TaskAborted
    {
      AbortedTaskAt(o, i);
      assert i < k ==> r.tasks[i] == DoneTask(o, i);
    }
  }

  lemma AbortedValid(o: Origin)
    requires Startable(o) && 0 < |o.tasks| <= MAX_TASKS
    ensures ValidRun(AbortedRun(o))
  {
    hide Startable, ValidTask, ValidOutbox, ValidSequence, ValidRecord, Numbered, Outcomes, Digest, Unique,
      ExpectedLevel, TaskAt, OutboxAt, DoneTask, TasksAt, OutboxesAt, RecordsAt, Distinct, StepIds;
    var k := |o.tasks| - 1;
    var r, next := RunAt(o, k, Refused), AbortedRun(o);
    RunAtValid(o, k, Refused);
    StopsRun(o);
    forall i | 0 <= i < |next.tasks| ensures ValidTask(next.tasks[i], next) && ValidOutbox(next.outbox[i], next.tasks[i])
      && ValidSequence(next, i) {
      StoppedTask(r, next, i);
    }
    forall i | 0 <= i < |next.records| ensures ValidRecord(next.records[i], next) {
      StoppedRecord(r, next, next.records[i]);
    }
    assert next.tasks[k].state == TaskAborted;
    assert next.evidence[0].id == next.abort.value.evidenceIds[0];
  }

  lemma AbortAccepted(o: Origin) returns (r: Run)
    requires Startable(o) && 0 < |o.tasks| <= MAX_TASKS
    ensures Perform(RunAt(o, |o.tasks| - 1, Refused), Stopping(o), o.at) == Ok(r) && r.condition == Aborted
            && r.revision == 4 * |o.tasks| + 2
  {
    hide Startable, ValidRun, Mutated, RunAt, AbortedTasks, Stopping;
    RunAtValid(o, |o.tasks| - 1, Refused);
    AbortedValid(o);
    AbortCopy(o);
    r := AbortedRun(o);
  }

  // ---------------------------------------------------------------- the whole run

  lemma Begins(o: Origin)
    requires Startable(o)
    ensures |o.tasks| > 0 && CreateRun(o) == Ok(RunAt(o, 0, Waiting))
  {
    hide ValidRun, ExpectedLevel, Unique;
    StartFacts(o);
    var r := RunAt(o, 0, Waiting);
    assert r.tasks == Initial(o).tasks && r.outbox == Initial(o).outbox && r.records == [];
    assert ExpectedLevel(r.tasks) == Planned by { NothingDone(r.tasks); }
  }

  lemma NothingDone(tasks: seq<Task>)
    requires tasks != [] && forall i :: 0 <= i < |tasks| ==> tasks[i].state == Pending && tasks[i].baseline.None?
    ensures ExpectedLevel(tasks) == Planned
  {
    assert tasks[0].state != Verified;
  }

  lemma Extend(o: Origin, events: seq<Event>, r: Run, s: Step, next: Run)
    requires Reaches(o, events, r) && Perform(r, s, o.at) == Ok(next)
    ensures Reaches(o, events + [Event(s, o.at)], next)
  {
    hide Perform, CreateRun;
    assert (events + [Event(s, o.at)])[..|events|] == events;
  }

  lemma UpToCaptured(o: Origin, events: seq<Event>, k: nat) returns (more: seq<Event>)
    requires Startable(o) && k < |o.tasks| <= MAX_TASKS && Reaches(o, events, RunAt(o, k, Waiting))
    ensures Reaches(o, more, RunAt(o, k, Capturing)) && |more| == |events| + 3
  {
    hide Startable, Reaches, Perform, RunAt, StepAt;
    StageStep(o, k, Waiting);
    StageStep(o, k, Doubtful);
    StageStep(o, k, Linked);
    var e1 := Event(StepAt(o, k, Waiting, false), o.at);
    var e2 := Event(StepAt(o, k, Doubtful, false), o.at);
    var e3 := Event(StepAt(o, k, Linked, false), o.at);
    Extend(o, events, RunAt(o, k, Waiting), e1.step, RunAt(o, k, Doubtful));
    Extend(o, events + [e1], RunAt(o, k, Doubtful), e2.step, RunAt(o, k, Linked));
    Extend(o, events + [e1] + [e2], RunAt(o, k, Linked), e3.step, RunAt(o, k, Capturing));
    more := events + [e1] + [e2] + [e3];
  }

  lemma {:induction false} UpToTask(o: Origin, k: nat) returns (events: seq<Event>)
    requires Startable(o) && k < |o.tasks| <= MAX_TASKS
    ensures Reaches(o, events, RunAt(o, k, Waiting)) && |events| == 4 * k
  {
    hide Startable, Perform, RunAt, StepAt, CreateRun;
    if k == 0 {
      Begins(o);
      events := [];
      assert Startable(o);
      StartedAt(o);
    } else {
      hide Reaches;
      var before := UpToTask(o, k - 1);
      var captured := UpToCaptured(o, before, k - 1);
      TaskPasses(o, k - 1);
      Extend(o, captured, RunAt(o, k - 1, Capturing), StepAt(o, k - 1, Capturing, true), RunAt(o, k, Waiting));
      events := captured + [Event(StepAt(o, k - 1, Capturing, true), o.at)];
    }
  }

  lemma StartedAt(o: Origin)
    requires CreateRun(o).Ok?
    ensures Reaches(o, [], CreateRun(o).value)
  {
    hide CreateRun, Perform;
  }

  /** Whatever tasks a run has, an execution of four steps for each and a last one exists: every task is put in
      doubt, linked, captured and verified, the last verification fails, and the run is aborted. */
  lemma LongestRun(o: Origin) returns (events: seq<Event>, r: Run)
    requires CreateRun(o).Ok?
    ensures Reaches(o, events, r) && |events| == 4 * |o.tasks| + 1 && r.revision == 4 * |o.tasks| + 2 && r.condition == Aborted
  {
    hide Reaches, Perform, RunAt, StepAt, CreateRun;
    assert Startable(o);
    StartFacts(o);
    var k := |o.tasks| - 1;
    var waiting := UpToTask(o, k);
    var captured := UpToCaptured(o, waiting, k);
    StageStep(o, k, Capturing);
    var e := Event(StepAt(o, k, Capturing, false), o.at);
    Extend(o, captured, RunAt(o, k, Capturing), e.step, RunAt(o, k, Refused));
    r := AbortAccepted(o);
    Extend(o, captured + [e], RunAt(o, k, Refused), Stopping(o), r);
    events := captured + [e] + [Event(Stopping(o), o.at)];
  }
}
