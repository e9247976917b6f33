/** A Delivery Run: its tasks and outboxes, the validator every stored state passes, and the steps. */
module DeliveryRuns {
  import opened Errors
  import opened Wrappers

  datatype TaskState = Pending | MissionLinked | Captured | Verified | Failed | TaskOffCourse | TaskReconcile | TaskAborted
  datatype OutboxState = Held | Ready | Applied | OutboxReconcile | Blocked | Canceled
  datatype Condition = Preparing | Active | AwaitingVerification | RunBlocked | OffCourse | Reconciling | Aborted | RunVerified
  datatype Level = Planned | ImplementedLocally | VerifiedLocally
  datatype CriterionOutcome = Passed | NotPassed | NotRun

  const MAX_TASKS := 80
  const MAX_ERROR := 500

  /** A captured workspace: what identifies the checkout, and the digest of its contents. */
  datatype Baseline = Baseline(identity: string, digest: string, capturedAt: int)

  /** What a task is bound to; a binding key is represented by what it was computed from. */
  datatype BindingKey = BindingKey(runId: string, planId: string, planDigest: string, stepId: string)

  datatype TaskInput = TaskInput(stepId: string, stepDigest: string, acceptanceIds: seq<string>, definitionDigest: string)
  datatype Task = Task(input: TaskInput, expected: string, state: TaskState, bindingKey: BindingKey, missionId: string,
                       baseline: Option<Baseline>, verificationId: string)
  datatype Outbox = Outbox(stepId: string, bindingKey: BindingKey, payloadDigest: string, state: OutboxState, missionId: string,
                           error: string, updatedAt: int)
  datatype Evidence = Evidence(id: string, review: bool, applied: bool, createdAt: int)
  datatype Criterion = Criterion(acceptanceId: string, outcome: CriterionOutcome)
  datatype Verification = Verification(id: string, stepId: string, planDigest: string, missionId: string, criteria: seq<Criterion>,
                                       passed: bool, before: string, after: string, verifiedAt: int)
  datatype Abort = Abort(fromCondition: Condition, reason: string, evidenceIds: seq<string>, abortedAt: int)
  datatype Run = Run(id: string, revision: int, planId: string, planRevision: int, planDigest: string, start: Baseline,
                     condition: Condition, tasks: seq<Task>, outbox: seq<Outbox>, evidence: seq<Evidence>,
                     records: seq<Verification>, level: Level, levelUpdatedAt: int, abort: Option<Abort>, blocker: string,
                     createdAt: int, updatedAt: int)

  function Key(r: Run, stepId: string): BindingKey {
    BindingKey(r.id, r.planId, r.planDigest, stepId)
  }

  function ExpectedLevel(tasks: seq<Task>): Level {
    if forall i :: 0 <= i < |tasks| ==> tasks[i].state == Verified then VerifiedLocally
    else if exists i :: 0 <= i < |tasks| && tasks[i].baseline.Some? then ImplementedLocally
    else Planned
  }

  // ---------------------------------------------------------------- the validator

  predicate ValidTask(t: Task, r: Run) {
    && t.input.stepId != "" && t.input.acceptanceIds != [] && Distinct(t.input.acceptanceIds) && t.bindingKey == Key(r, t.input.stepId)
    && (t.baseline.Some? ==> t.baseline.value.identity == r.start.identity)
    && (t.verificationId != "" ==> exists i :: 0 <= i < |r.records| && r.records[i].id == t.verificationId)
    && (t.state in {MissionLinked, Captured, Verified, Failed} ==> t.missionId != "")
    && (t.state in {Captured, Verified, Failed} ==> t.baseline.Some?)
    && (t.state in {Verified, Failed} ==> t.verificationId != "")
  }

  predicate ValidOutbox(o: Outbox, t: Task) {
    && o.stepId == t.input.stepId && o.bindingKey == t.bindingKey && o.payloadDigest == t.input.definitionDigest
    && (if o.state == Applied then o.missionId != "" && o.missionId == t.missionId && t.state != Pending else o.missionId == "")
    && (o.state == OutboxReconcile ==> t.state == TaskReconcile)
    && (o.state == Blocked ==> t.state == TaskOffCourse)
    && (o.state == Canceled ==> t.state == TaskAborted && o.error != "")
    && (o.error != "" ==> o.state in {OutboxReconcile, Blocked, Canceled})
  }

  /** Each task expects the workspace its verified predecessor left, and only then its mission is released. */
  predicate ValidSequence(r: Run, i: nat)
    requires i < |r.tasks| == |r.outbox|
  {
    && (i == 0 ==> r.tasks[0].expected == r.start.digest)
    && (if r.condition == Aborted then
          if r.tasks[i].state == Verified then r.outbox[i].state == Applied
          else r.tasks[i].state == TaskAborted && r.outbox[i].state in {Applied, Canceled}
        else r.tasks[i].state != TaskAborted && r.outbox[i].state != Canceled)
    && (i > 0 ==>
          && r.tasks[i].expected == (if r.tasks[i - 1].state == Verified && r.tasks[i - 1].baseline.Some? then r.tasks[i - 1].baseline.value.digest else "")
          && (r.condition != Aborted ==>
                && (r.tasks[i - 1].state == Verified && r.tasks[i].state == Pending ==>
                      r.outbox[i].state in {Ready, OutboxReconcile, Applied, Blocked})
                && (r.tasks[i - 1].state != Verified ==> r.outbox[i].state == Held)))
  }

  predicate AllPassed(criteria: seq<Criterion>) {
    forall i :: 0 <= i < |criteria| ==> criteria[i].outcome == Passed
  }

  predicate ValidRecord(v: Verification, r: Run) {
    exists i :: 0 <= i < |r.tasks| && r.tasks[i].input.stepId == v.stepId
      && v.id != "" && r.tasks[i].verificationId == v.id && v.planDigest == r.planDigest && v.missionId == r.tasks[i].missionId
      && |v.criteria| == |r.tasks[i].input.acceptanceIds|
      && r.tasks[i].baseline.Some? && v.before == r.tasks[i].baseline.value.digest && v.after == r.tasks[i].baseline.value.digest
      && (v.passed <==> AllPassed(v.criteria))
  }

  predicate SomeTask(r: Run, s: TaskState) {
    exists i :: 0 <= i < |r.tasks| && r.tasks[i].state == s
  }

  predicate Distinct(ids: seq<string>) {
    forall i, j :: 0 <= i < j < |ids| ==> ids[i] != ids[j]
  }

  function StepIds(tasks: seq<Task>): seq<string> {
    seq(|tasks|, i requires 0 <= i < |tasks| => tasks[i].input.stepId)
  }

  predicate ValidAbort(r: Run) {
    if r.condition == Aborted then
      && r.abort.Some? && SomeTask(r, TaskAborted)
      && r.abort.value.fromCondition !in {Aborted, RunVerified} && r.abort.value.reason != "" && r.abort.value.abortedAt == r.updatedAt
      && (exists i, j :: 0 <= i < |r.evidence| && 0 <= j < |r.abort.value.evidenceIds| && r.evidence[i].id == r.abort.value.evidenceIds[j]
            && r.evidence[i].review && r.evidence[i].applied && r.evidence[i].createdAt == r.abort.value.abortedAt)
      && r.blocker == r.abort.value.reason
      && (forall i :: 0 <= i < |r.outbox| && r.outbox[i].state == Canceled ==>
            r.outbox[i].error == Cut(r.abort.value.reason) && r.outbox[i].updatedAt == r.abort.value.abortedAt)
    else r.abort.None?
  }

  function Cut(text: string): string {
    if |text| <= MAX_ERROR then text else text[..MAX_ERROR]
  }

  predicate ValidRun(r: Run) {
    && r.id != "" && r.revision >= 1 && r.planRevision >= 1 && r.createdAt <= r.updatedAt
    && 1 <= |r.tasks| <= MAX_TASKS && |r.outbox| == |r.tasks|
    && Distinct(StepIds(r.tasks))
    && (forall i, j :: 0 <= i < j < |r.records| ==> r.records[i].id != r.records[j].id)
    && (forall i, j :: 0 <= i < j < |r.evidence| ==> r.evidence[i].id != r.evidence[j].id)
    && (forall i :: 0 <= i < |r.tasks| ==> ValidTask(r.tasks[i], r) && ValidOutbox(r.outbox[i], r.tasks[i]) && ValidSequence(r, i))
    && (forall i :: 0 <= i < |r.records| ==> ValidRecord(r.records[i], r))
    && (forall i, j :: 0 <= i < j < |r.outbox| ==> !(r.outbox[i].state in {Ready, OutboxReconcile} && r.outbox[j].state in {Ready, OutboxReconcile}))
    && r.level == ExpectedLevel(r.tasks) && r.levelUpdatedAt <= r.updatedAt
    && ValidAbort(r)
    && (r.condition == RunVerified ==> forall i :: 0 <= i < |r.tasks| ==> r.tasks[i].state == Verified)
    && (r.condition == AwaitingVerification ==> SomeTask(r, Captured))
    && (r.condition == Reconciling ==> SomeTask(r, TaskReconcile))
    && (r.condition == OffCourse ==> SomeTask(r, TaskOffCourse))
    && (r.condition == RunBlocked ==> SomeTask(r, Failed))
    && (r.condition in {RunBlocked, OffCourse, Reconciling, Aborted} <==> r.blocker != "")
  }

  function Validated(r: Run): Result<Run> {
    if ValidRun(r) then Ok(r) else Err(RunInvalid)
  }

  // ---------------------------------------------------------------- creation

  datatype Origin = Origin(id: string, planId: string, planRevision: int, planDigest: string, start: Baseline, tasks: seq<TaskInput>, at: int)

  /** Repeated ids are dropped. */
  function Unique(ids: seq<string>): (unique: seq<string>)
    ensures Distinct(unique) && (unique == [] <==> ids == []) && forall id :: id in unique <==> id in ids
  {
    if ids == [] then []
    else
      var rest, last := Unique(ids[..|ids| - 1]), ids[|ids| - 1];
      assert ids == ids[..|ids| - 1] + [last];
      if last in rest then rest else rest + [last]
  }

  function NewTask(o: Origin, i: nat): Task
    requires i < |o.tasks|
  {
    Task(o.tasks[i].(acceptanceIds := Unique(o.tasks[i].acceptanceIds)), if i == 0 then o.start.digest else "", Pending, BindingKey(o.id, o.planId, o.planDigest, o.tasks[i].stepId), "", None, "")
  }

  function NewOutbox(o: Origin, i: nat): Outbox
    requires i < |o.tasks|
  {
    Outbox(o.tasks[i].stepId, BindingKey(o.id, o.planId, o.planDigest, o.tasks[i].stepId), o.tasks[i].definitionDigest,
           if i == 0 then Ready else Held, "", "", o.at)
  }

  function Initial(o: Origin): Run {
    Run(o.id, 1, o.planId, o.planRevision, o.planDigest, o.start, Preparing,
        seq(|o.tasks|, i requires 0 <= i < |o.tasks| => NewTask(o, i)),
        seq(|o.tasks|, i requires 0 <= i < |o.tasks| => NewOutbox(o, i)),
        [], [], Planned, o.at, None, "", o.at, o.at)
  }

  function CreateRun(o: Origin): Result<Run> {
    Validated(Initial(o))
  }

  lemma InitialTask(o: Origin, i: nat)
    requires i < |o.tasks|
    ensures ValidTask(Initial(o).tasks[i], Initial(o)) <==> o.tasks[i].stepId != "" && o.tasks[i].acceptanceIds != []
    ensures ValidOutbox(Initial(o).outbox[i], Initial(o).tasks[i]) && ValidSequence(Initial(o), i)
  {
  }

  lemma InitialWhole(o: Origin)
    requires o.tasks != []
    ensures Initial(o).level == ExpectedLevel(Initial(o).tasks) && ValidAbort(Initial(o))
    ensures Distinct(StepIds(Initial(o).tasks)) <==> forall i, j :: 0 <= i < j < |o.tasks| ==> o.tasks[i].stepId != o.tasks[j].stepId
  {
    var r := Initial(o);
    assert r.tasks[0].state != Verified;
    var ids := StepIds(r.tasks);
    assert forall i :: 0 <= i < |o.tasks| ==> ids[i] == o.tasks[i].stepId;
    if Distinct(ids) {
      forall i, j | 0 <= i < j < |o.tasks| ensures o.tasks[i].stepId != o.tasks[j].stepId {
        assert ids[i] != ids[j];
      }
    }
  }

  /** Exactly which inputs a run is created from. */
  lemma CreateAccepted(o: Origin)
    ensures CreateRun(o).Ok? <==>
      && o.id != "" && o.planRevision >= 1 && 1 <= |o.tasks| <= MAX_TASKS
      && (forall i :: 0 <= i < |o.tasks| ==> o.tasks[i].stepId != "" && o.tasks[i].acceptanceIds != [])
      && (forall i, j :: 0 <= i < j < |o.tasks| ==> o.tasks[i].stepId != o.tasks[j].stepId)
  {
    hide ValidTask, ValidOutbox, ValidSequence, ValidRecord, ValidAbort, ExpectedLevel, Distinct, StepIds;
    if o.tasks != [] {
      InitialWhole(o);
    }
    forall i | 0 <= i < |o.tasks|
      ensures (ValidTask(Initial(o).tasks[i], Initial(o)) <==> o.tasks[i].stepId != "" && o.tasks[i].acceptanceIds != [])
              && ValidOutbox(Initial(o).outbox[i], Initial(o).tasks[i]) && ValidSequence(Initial(o), i)
    {
      InitialTask(o, i);
    }
  }

  // ---------------------------------------------------------------- steps

  datatype Step =
    | LinkMission(stepId: string, bindingKey: BindingKey, missionId: string)
    | RequireReconcile(stepId: string, bindingKey: BindingKey, error: string)
    | Capture(stepId: string, missionId: string, baseline: Baseline, evidence: seq<Evidence>)
    | Verify(stepId: string, id: string, missionId: string, baseline: Baseline, criteria: seq<Criterion>, evidence: seq<Evidence>, note: string)
    | AbortRun(confirmed: bool, reason: string, evidence: seq<Evidence>)
    | LeaveCourse(stepId: string, reason: string, evidence: seq<Evidence>)

  /** Position of the first task with this step id. */
  function FindTask(tasks: seq<Task>, stepId: string): (i: Option<nat>)
    ensures i.Some? ==> i.value < |tasks| && tasks[i.value].input.stepId == stepId
  {
    if tasks == [] then None
    else if tasks[0].input.stepId == stepId then Some(0)
    else match FindTask(tasks[1..], stepId) { case None => None case Some(i) => Some(i + 1) }
  }

  predicate FreshEvidence(r: Run, evidence: seq<Evidence>) {
    && (forall i, j :: 0 <= i < j < |evidence| ==> evidence[i].id != evidence[j].id)
    && (forall i, j :: 0 <= i < |r.evidence| && 0 <= j < |evidence| ==> r.evidence[i].id != evidence[j].id)
  }

  /** Adds evidence and recomputes the delivery level. */
  function Refreshed(r: Run, evidence: seq<Evidence>, at: int): Run {
    r.(evidence := r.evidence + evidence, level := ExpectedLevel(r.tasks), levelUpdatedAt := at)
  }

  predicate WorkMutable(r: Run) {
    r.condition !in {Aborted, RunVerified}
  }

  function Link(r: Run, i: nat, bindingKey: BindingKey, missionId: string, at: int): Result<Run>
    requires i < |r.tasks| == |r.outbox|
  {
    var t, o := r.tasks[i], r.outbox[i];
    if !WorkMutable(r) || o.state !in {Ready, OutboxReconcile} || t.state !in {Pending, TaskReconcile}
    then Err(RunMissionLinkStateInvalid) else
    if bindingKey != t.bindingKey then Err(RunMissionBindingConflict) else
    if missionId == "" then Err(RunMissionIdInvalid) else
    Ok(r.(tasks := r.tasks[i := t.(state := MissionLinked, missionId := missionId)],
              outbox := r.outbox[i := o.(state := Applied, missionId := missionId, error := "", updatedAt := at)],
          condition := Active, blocker := ""))
  }

  function Reconcile(r: Run, i: nat, bindingKey: BindingKey, error: string, at: int): Result<Run>
    requires i < |r.tasks| == |r.outbox|
  {
    var t, o := r.tasks[i], r.outbox[i];
    if !WorkMutable(r) || o.state != Ready || t.state != Pending then Err(RunMissionReconcileStateInvalid) else
    if bindingKey != t.bindingKey then Err(RunMissionBindingConflict) else
    if error == "" then Err(RunMissionReconcileErrorInvalid) else
    Ok(r.(tasks := r.tasks[i := t.(state := TaskReconcile)],
              outbox := r.outbox[i := o.(state := OutboxReconcile, error := error, updatedAt := at)],
              condition := Reconciling, blocker := error))
  }

  function CaptureStep(r: Run, i: nat, missionId: string, baseline: Baseline, evidence: seq<Evidence>, at: int): Result<Run>
    requires i < |r.tasks| == |r.outbox|
  {
    var t := r.tasks[i];
    if !WorkMutable(r) || t.state != MissionLinked || missionId != t.missionId
    then Err(RunImplementationStateInvalid) else
    if baseline.identity != r.start.identity then Err(RunImplementationBaselineIdentityChanged) else
    if baseline.digest == t.expected then Err(RunImplementationUnchanged) else
    if !FreshEvidence(r, evidence) then Err(RunEvidenceDuplicate) else
    Ok(Refreshed(r.(tasks := r.tasks[i := t.(state := Captured, baseline := Some(baseline))],
                        condition := AwaitingVerification, blocker := ""), evidence, at))
  }

  predicate CriteriaCover(criteria: seq<Criterion>, acceptanceIds: seq<string>) {
    && |criteria| == |acceptanceIds|
    && (forall i :: 0 <= i < |criteria| ==> criteria[i].acceptanceId in acceptanceIds)
    && (forall i, j :: 0 <= i < j < |criteria| ==> criteria[i].acceptanceId != criteria[j].acceptanceId)
  }

  function VerifyStep(r: Run, i: nat, s: Step, at: int): Result<Run>
    requires i < |r.tasks| == |r.outbox| && s.Verify?
  {
    var t := r.tasks[i];
    if !WorkMutable(r) || t.state != Captured || s.missionId != t.missionId then Err(RunVerificationStateInvalid) else
    if s.id == "" || exists j :: 0 <= j < |r.records| && r.records[j].id == s.id
    then Err(RunVerificationDuplicate) else
    if t.baseline.None? || s.baseline.digest != t.baseline.value.digest then Err(RunVerificationBaselineChanged) else
    if !CriteriaCover(s.criteria, t.input.acceptanceIds) then Err(RunVerificationCriteriaInvalid) else
    if !FreshEvidence(r, s.evidence) then Err(RunEvidenceDuplicate) else
    if s.note == "" then Err(RunVerificationNoteRequired) else
    var passed := AllPassed(s.criteria);
    var record := Verification(s.id, t.input.stepId, r.planDigest, t.missionId, s.criteria, passed, t.baseline.value.digest, s.baseline.digest, at);
    var tasks := r.tasks[i := t.(verificationId := s.id, state := if passed then Verified else Failed)];
    var recorded := r.(records := r.records + [record], tasks := tasks);
    var next :=
      if !passed then recorded.(condition := RunBlocked, blocker := s.note)
      else if i + 1 < |r.tasks| then
        recorded.(tasks := tasks[i + 1 := tasks[i + 1].(expected := s.baseline.digest)],
                  outbox := r.outbox[i + 1 := r.outbox[i + 1].(state := Ready, updatedAt := at)], condition := Active, blocker := "")
      else recorded.(condition := RunVerified, blocker := "");
    Ok(Refreshed(next, s.evidence, at))
  }

  function AbortedTask(t: Task): Task {
    if t.state == Verified then t else t.(state := TaskAborted)
  }

  function AbortedOutbox(t: Task, o: Outbox, reason: string, at: int): Outbox {
    if t.state == Verified || o.state == Applied then o
    else o.(state := Canceled, missionId := "", error := Cut(reason), updatedAt := at)
  }

  function AbortStep(r: Run, confirmed: bool, reason: string, evidence: seq<Evidence>, at: int): Result<Run>
    requires |r.tasks| == |r.outbox|
  {
    if !WorkMutable(r) then Err(RunAbortStateInvalid) else
    if !confirmed then Err(RunAbortConfirmationRequired) else
    if reason == "" then Err(RunAbortReasonInvalid) else
    if !FreshEvidence(r, evidence) then Err(RunEvidenceDuplicate) else
    if forall i :: 0 <= i < |evidence| ==> !(evidence[i].review && evidence[i].applied && evidence[i].createdAt == at)
    then Err(RunAbortOperatorEvidenceRequired) else
    Ok(Refreshed(r.(tasks := seq(|r.tasks|, i requires 0 <= i < |r.tasks| => AbortedTask(r.tasks[i])),
                        outbox := seq(|r.outbox|, i requires 0 <= i < |r.outbox| => AbortedOutbox(r.tasks[i], r.outbox[i], reason, at)),
                        condition := Aborted,
                        abort := Some(Abort(r.condition, reason, seq(|evidence|, i requires 0 <= i < |evidence| => evidence[i].id), at)),
                        blocker := reason), evidence, at))
  }

  function OffCourseStep(r: Run, i: nat, reason: string, evidence: seq<Evidence>, at: int): Result<Run>
    requires i < |r.tasks| == |r.outbox|
  {
    var t, o := r.tasks[i], r.outbox[i];
    if r.condition in {RunVerified, Aborted, OffCourse, RunBlocked} then Err(RunOffCourseStateInvalid) else
    if t.state in {Verified, Failed, TaskOffCourse} then Err(RunOffCourseStateInvalid) else
    if reason == "" then Err(RunOffCourseReasonInvalid) else
    if !FreshEvidence(r, evidence) then Err(RunEvidenceDuplicate) else
    Ok(Refreshed(r.(tasks := r.tasks[i := t.(state := TaskOffCourse)],
                        outbox := r.outbox[i := if o.state == Applied then o else o.(state := Blocked, error := Cut(reason), updatedAt := at)],
                        condition := OffCourse, blocker := reason), evidence, at))
  }

  /** The changed copy of the run. */
  function Mutated(r: Run, s: Step, at: int): Result<Run>
    requires |r.tasks| == |r.outbox|
  {
    if s.AbortRun? then AbortStep(r, s.confirmed, s.reason, s.evidence, at)
    else
      var i := FindTask(r.tasks, s.stepId);
      if i.None? then Err(RunTaskNotFound) else
      match s
      case LinkMission(_, bindingKey, missionId) => Link(r, i.value, bindingKey, missionId, at)
      case RequireReconcile(_, bindingKey, error) => Reconcile(r, i.value, bindingKey, error, at)
      case Capture(_, missionId, baseline, evidence) => CaptureStep(r, i.value, missionId, baseline, evidence, at)
      case Verify(_, _, _, _, _, _, _) => VerifyStep(r, i.value, s, at)
      case LeaveCourse(_, reason, evidence) => OffCourseStep(r, i.value, reason, evidence, at)
  }

  function Stamped(next: Run, at: int): Run {
    next.(revision := next.revision + 1, updatedAt := at)
  }

  /** One accepted step: the run is valid, the step's guard passes, and the validator accepts the
      changed copy with its next revision. */
  function Perform(r: Run, s: Step, at: int): Result<Run> {
    if !ValidRun(r) then Err(RunInvalid) else
    var next :- Mutated(r, s, at);
    Validated(Stamped(next, at))
  }

  datatype Event = Event(step: Step, at: int)

  function Execute(r: Run, events: seq<Event>): Result<Run> {
    if events == [] then Ok(r)
    else
      var before :- Execute(r, events[..|events| - 1]);
      Perform(before, events[|events| - 1].step, events[|events| - 1].at)
  }

  predicate Reaches(o: Origin, events: seq<Event>, r: Run) {
    CreateRun(o).Ok? && Execute(CreateRun(o).value, events) == Ok(r)
  }
}
