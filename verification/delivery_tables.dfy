/** What a valid Delivery Run holds in each of its states, as tables the validator comes to. */
module DeliveryTables {
  import opened Wrappers
  import opened DeliveryRuns
  import Effects = DeliveryRunEffects

  predicate HasRecord(r: Run, id: string) {
    id != "" && exists i :: 0 <= i < |r.records| && r.records[i].id == id
  }

  /** Tasks at work on a mission: linked to it, captured, and judged by a record of the run. */
  predicate TaskTable(r: Run, t: Task) {
    && t.input.stepId != "" && t.input.acceptanceIds != []
    && (forall i, j :: 0 <= i < j < |t.input.acceptanceIds| ==> t.input.acceptanceIds[i] != t.input.acceptanceIds[j])
    && t.bindingKey == BindingKey(r.id, r.planId, r.planDigest, t.input.stepId)
    && (match t.baseline case None => true case Some(b) => b.identity == r.start.identity)
    && (t.verificationId == "" || HasRecord(r, t.verificationId))
    && match t.state
       case MissionLinked => t.missionId != ""
       case Captured => t.missionId != "" && t.baseline != None
       case Verified => t.missionId != "" && t.baseline != None && t.verificationId != ""
       case Failed => t.missionId != "" && t.baseline != None && t.verificationId != ""
       case _ => true
  }

  /** The outbox entry of a task: only an applied one has a mission, and it is the task's. */
  predicate OutboxTable(o: Outbox, t: Task) {
    && o.stepId == t.input.stepId && o.bindingKey == t.bindingKey && o.payloadDigest == t.input.definitionDigest
    && match o.state
       case Held => o.missionId == "" && o.error == ""
       case Ready => o.missionId == "" && o.error == ""
       case Applied => o.missionId != "" && o.missionId == t.missionId && o.error == "" && t.state != Pending
       case OutboxReconcile => o.missionId == "" && t.state == TaskReconcile
       case Blocked => o.missionId == "" && t.state == TaskOffCourse
       case Canceled => o.missionId == "" && o.error != "" && t.state == TaskAborted
  }

  lemma TaskMeans(r: Run, t: Task)
    ensures ValidTask(t, r) <==> TaskTable(r, t)
  {
    match t.baseline {
      case None =>
      case Some(_) =>
    }
  }

  lemma OutboxMeans(o: Outbox, t: Task)
    ensures ValidOutbox(o, t) <==> OutboxTable(o, t)
  {
  }

  /** What the i-th task expects to find: the first the start of the run, each other what a verified predecessor left. */
  predicate Expects(r: Run, i: nat)
    requires i < |r.tasks|
  {
    if i == 0 then r.tasks[0].expected == r.start.digest
    else if r.tasks[i - 1].state != Verified then r.tasks[i].expected == ""
    else match r.tasks[i - 1].baseline
         case None => r.tasks[i].expected == ""
         case Some(b) => r.tasks[i].expected == b.digest
  }

  /** Missions are held until the task before is verified, then released; an aborted run has none left to apply. */
  predicate Released(r: Run, i: nat)
    requires i < |r.tasks| == |r.outbox|
  {
    if r.condition == Aborted then
      if r.tasks[i].state == Verified then r.outbox[i].state == Applied
      else r.tasks[i].state == TaskAborted && (r.outbox[i].state == Applied || r.outbox[i].state == Canceled)
    else
      && r.tasks[i].state != TaskAborted && r.outbox[i].state != Canceled
      && (i > 0 ==>
            if r.tasks[i - 1].state != Verified then r.outbox[i].state == Held
            else r.tasks[i].state == Pending ==> r.outbox[i].state != Held)
  }

  lemma SequenceMeans(r: Run, i: nat)
    requires i < |r.tasks| == |r.outbox|
    ensures ValidSequence(r, i) <==> Expects(r, i) && Released(r, i)
  {
    match r.outbox[i].state {
      case Held | Canceled =>
      case Ready | OutboxReconcile | Applied | Blocked =>
    }
    if i > 0 {
      match r.tasks[i - 1].baseline {
        case None =>
        case Some(_) =>
      }
    }
  }

  /** A record judges the workspace its task captured: one criterion for each acceptance id, and passed when all are. */
  predicate RecordTable(r: Run, v: Verification) {
    exists i :: 0 <= i < |r.tasks| && Judges(r, r.tasks[i], v)
  }

  predicate Judges(r: Run, t: Task, v: Verification) {
    && v.id != "" && v.id == t.verificationId && v.stepId == t.input.stepId && v.planDigest == r.planDigest && v.missionId == t.missionId
    && |v.criteria| == |t.input.acceptanceIds| && v.passed == (forall i :: 0 <= i < |v.criteria| ==> v.criteria[i].outcome == Passed)
    && match t.baseline
       case None => false
       case Some(b) => v.before == b.digest == v.after
  }

  lemma RecordMeans(r: Run, v: Verification)
    ensures ValidRecord(v, r) <==> RecordTable(r, v)
  {
    if ValidRecord(v, r) {
      var i :| 0 <= i < |r.tasks| && r.tasks[i].input.stepId == v.stepId
        && v.id != "" && r.tasks[i].verificationId == v.id && v.planDigest == r.planDigest && v.missionId == r.tasks[i].missionId
        && |v.criteria| == |r.tasks[i].input.acceptanceIds|
        && r.tasks[i].baseline.Some? && v.before == r.tasks[i].baseline.value.digest && v.after == r.tasks[i].baseline.value.digest
        && (v.passed <==> AllPassed(v.criteria));
      assert Judges(r, r.tasks[i], v);
    }
    if RecordTable(r, v) {
      var i :| 0 <= i < |r.tasks| && Judges(r, r.tasks[i], v);
      assert r.tasks[i].input.stepId == v.stepId;
    }
  }

  predicate SomeTaskIs(r: Run, state: TaskState) {
    exists i :: 0 <= i < |r.tasks| && r.tasks[i].state == state
  }

  /** An aborted run names the operator's evidence of that moment, and tells every mission it cancelled why. */
  predicate AbortTable(r: Run) {
    match r.abort
    case None => r.condition != Aborted
    case Some(a) =>
      && r.condition == Aborted && SomeTaskIs(r, TaskAborted) && a.fromCondition != Aborted && a.fromCondition != RunVerified
      && a.reason != "" && r.blocker == a.reason && a.abortedAt == r.updatedAt
      && (exists i :: 0 <= i < |r.evidence| && OperatorEvidence(r.evidence[i], a))
      && forall i :: 0 <= i < |r.outbox| && r.outbox[i].state == Canceled ==>
           && r.outbox[i].updatedAt == a.abortedAt
           && if |a.reason| <= 500 then r.outbox[i].error == a.reason else r.outbox[i].error == a.reason[..500]
  }

  predicate OperatorEvidence(e: Evidence, a: Abort) {
    e.id in a.evidenceIds && e.review && e.applied && e.createdAt == a.abortedAt
  }

  lemma AbortMeans(r: Run)
    ensures ValidAbort(r) <==> AbortTable(r)
  {
    match r.abort {
      case None =>
      case Some(a) =>
        if AbortTable(r) {
          var i :| 0 <= i < |r.evidence| && OperatorEvidence(r.evidence[i], a);
          var j :| 0 <= j < |a.evidenceIds| && a.evidenceIds[j] == r.evidence[i].id;
          assert SomeTask(r, TaskAborted);
        }
        if ValidAbort(r) {
          var i, j :| 0 <= i < |r.evidence| && 0 <= j < |r.abort.value.evidenceIds| && r.evidence[i].id == r.abort.value.evidenceIds[j]
            && r.evidence[i].review && r.evidence[i].applied && r.evidence[i].createdAt == r.abort.value.abortedAt;
          assert OperatorEvidence(r.evidence[i], a);
        }
    }
  }

  /** What each condition is about, and that only a run at work has nothing in its way. */
  predicate ConditionTable(r: Run) {
    match r.condition
    case Preparing => r.blocker == ""
    case Active => r.blocker == ""
    case AwaitingVerification => r.blocker == "" && SomeTaskIs(r, Captured)
    case RunVerified => r.blocker == "" && forall i :: 0 <= i < |r.tasks| ==> r.tasks[i].state == Verified
    case Reconciling => r.blocker != "" && SomeTaskIs(r, TaskReconcile)
    case OffCourse => r.blocker != "" && SomeTaskIs(r, TaskOffCourse)
    case RunBlocked => r.blocker != "" && SomeTaskIs(r, Failed)
    case Aborted => r.blocker != ""
  }

  lemma ConditionMeans(r: Run)
    ensures ConditionTable(r) <==>
              && (r.condition == RunVerified ==> forall i :: 0 <= i < |r.tasks| ==> r.tasks[i].state == Verified)
              && (r.condition == AwaitingVerification ==> SomeTask(r, Captured)) && (r.condition == Reconciling ==> SomeTask(r, TaskReconcile))
              && (r.condition == OffCourse ==> SomeTask(r, TaskOffCourse)) && (r.condition == RunBlocked ==> SomeTask(r, Failed))
              && (r.condition in {RunBlocked, OffCourse, Reconciling, Aborted} <==> r.blocker != "")
  {
  }

  /** Waiting to be applied. */
  predicate Pends(o: Outbox) {
    o.state == Ready || o.state == OutboxReconcile
  }

  predicate OwnIds(r: Run) {
    && (forall i, j :: 0 <= i < j < |r.tasks| ==> r.tasks[i].input.stepId != r.tasks[j].input.stepId)
    && (forall i, j :: 0 <= i < j < |r.records| ==> r.records[i].id != r.records[j].id)
    && (forall i, j :: 0 <= i < j < |r.evidence| ==> r.evidence[i].id != r.evidence[j].id)
  }

  predicate TasksTable(r: Run) {
    && |r.tasks| == |r.outbox|
    && forall i :: 0 <= i < |r.tasks| ==> TaskTable(r, r.tasks[i]) && OutboxTable(r.outbox[i], r.tasks[i]) && Expects(r, i) && Released(r, i)
  }

  /** What a stored run is: one that these tables describe, with at most one mission waiting to be applied. */
  predicate StoredRun(r: Run) {
    && r.id != "" && r.revision >= 1 && r.planRevision >= 1 && r.createdAt <= r.updatedAt && r.levelUpdatedAt <= r.updatedAt
    && 1 <= |r.tasks| <= 80 && OwnIds(r) && TasksTable(r) && (forall i :: 0 <= i < |r.records| ==> RecordTable(r, r.records[i]))
    && (forall i, j :: 0 <= i < j < |r.outbox| ==> !(Pends(r.outbox[i]) && Pends(r.outbox[j])))
    && Effects.LevelShows(r) && AbortTable(r) && ConditionTable(r)
  }

  lemma TasksMean(r: Run)
    requires |r.tasks| == |r.outbox|
    ensures TasksTable(r) <==> forall i :: 0 <= i < |r.tasks| ==> ValidTask(r.tasks[i], r) && ValidOutbox(r.outbox[i], r.tasks[i]) && ValidSequence(r, i)
  {
    hide ValidTask, TaskTable, ValidOutbox, OutboxTable, ValidSequence, Expects, Released;
    forall i | 0 <= i < |r.tasks|
      ensures ValidTask(r.tasks[i], r) == TaskTable(r, r.tasks[i]) && ValidOutbox(r.outbox[i], r.tasks[i]) == OutboxTable(r.outbox[i], r.tasks[i])
      ensures ValidSequence(r, i) == (Expects(r, i) && Released(r, i))
    {
      TaskMeans(r, r.tasks[i]);
      OutboxMeans(r.outbox[i], r.tasks[i]);
      SequenceMeans(r, i);
    }
  }

  lemma IdsMean(r: Run)
    ensures OwnIds(r) <==> && Distinct(StepIds(r.tasks))
                           && (forall i, j :: 0 <= i < j < |r.records| ==> r.records[i].id != r.records[j].id)
                           && (forall i, j :: 0 <= i < j < |r.evidence| ==> r.evidence[i].id != r.evidence[j].id)
  {
    assert forall i :: 0 <= i < |r.tasks| ==> StepIds(r.tasks)[i] == r.tasks[i].input.stepId;
  }

  lemma LevelMeans(r: Run)
    requires r.tasks != []
    ensures r.level == ExpectedLevel(r.tasks) <==> Effects.LevelShows(r)
  {
  }

  /** The validator accepts exactly the runs in which every task, outbox entry and record, the abort, the level and
      the condition hold what their states call for. */
  lemma ValidMeans(r: Run)
    ensures ValidRun(r) <==> StoredRun(r)
  {
    hide ValidTask, ValidOutbox, ValidSequence, TasksTable, OwnIds, Distinct, StepIds, ValidRecord, RecordTable, Effects.LevelShows, ExpectedLevel,
      ValidAbort, AbortTable, SomeTask, ConditionTable;
    if 1 <= |r.tasks| == |r.outbox| {
      TasksMean(r);
      IdsMean(r);
      LevelMeans(r);
      AbortMeans(r);
      ConditionMeans(r);
      forall i | 0 <= i < |r.records| ensures ValidRecord(r.records[i], r) == RecordTable(r, r.records[i]) {
        RecordMeans(r, r.records[i]);
      }
    } else if StoredRun(r) {
      NoOutbox(r);
    }
  }

  lemma NoOutbox(r: Run)
    requires TasksTable(r)
    ensures |r.tasks| == |r.outbox|
  {
    hide TaskTable, OutboxTable, Expects, Released;
  }
}
