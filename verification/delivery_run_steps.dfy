/** What has to be said for a step of a Delivery Run, and what it leaves as it was. */
module DeliveryRunSteps {
  import opened Wrappers
  import opened DeliveryRuns
  import opened DeliveryFrontier
  import Verdicts = DeliveryVerdicts

  /** Evidence under ids that are new, each used once. */
  predicate NewEvidence(r: Run, evidence: seq<Evidence>) {
    && (forall i, j :: 0 <= i < j < |evidence| ==> evidence[i].id != evidence[j].id)
    && (forall i, j :: 0 <= i < |r.evidence| && 0 <= j < |evidence| ==> r.evidence[i].id != evidence[j].id)
  }

  /** The binding of the work to run, plan definition and task. */
  predicate OwnKey(r: Run, stepId: string, key: BindingKey) {
    key == BindingKey(r.id, r.planId, r.planDigest, stepId)
  }

  /** One criterion for each acceptance id, and none for anything else. */
  predicate CriterionForEach(criteria: seq<Criterion>, ids: seq<string>) {
    && |criteria| == |ids| && (forall i, j :: 0 <= i < j < |criteria| ==> criteria[i].acceptanceId != criteria[j].acceptanceId)
    && (forall i :: 0 <= i < |criteria| ==> criteria[i].acceptanceId in ids)
    && (forall id :: id in ids ==> exists i :: 0 <= i < |criteria| && criteria[i].acceptanceId == id)
  }

  /** What a step on a task has to say: about the task at the frontier, in the state the work is in. */
  predicate Calls(r: Run, t: Task, s: Step) {
    match s
    case LinkMission(stepId, key, missionId) =>
      t.state in {Pending, TaskReconcile} && stepId == t.input.stepId && OwnKey(r, stepId, key) && missionId != ""
    case RequireReconcile(stepId, key, error) => t.state == Pending && stepId == t.input.stepId && OwnKey(r, stepId, key) && error != ""
    case Capture(stepId, missionId, baseline, evidence) =>
      && t.state == MissionLinked && stepId == t.input.stepId && missionId == t.missionId
      && baseline.identity == r.start.identity && baseline.digest != t.expected && NewEvidence(r, evidence)
    case Verify(stepId, id, missionId, baseline, criteria, evidence, note) =>
      && t.state == Captured && stepId == t.input.stepId && missionId == t.missionId && id != "" && note != ""
      && (forall j :: 0 <= j < |r.records| ==> r.records[j].id != id)
      && t.baseline.Some? && baseline.digest == t.baseline.value.digest
      && CriterionForEach(criteria, t.input.acceptanceIds) && NewEvidence(r, evidence)
    case LeaveCourse(stepId, reason, evidence) =>
      && t.state !in {Verified, Failed, TaskOffCourse, TaskAborted} && stepId == t.input.stepId && reason != "" && NewEvidence(r, evidence)
    case AbortRun(_, _, _) => false
  }

  /** An abort is confirmed, has a reason, and brings the operator's own evidence of that moment. */
  predicate CallsForAbort(r: Run, s: Step, at: int) {
    match s
    case AbortRun(confirmed, reason, evidence) =>
      && confirmed && reason != "" && NewEvidence(r, evidence)
      && exists i :: 0 <= i < |evidence| && evidence[i].review && evidence[i].applied && evidence[i].createdAt == at
    case _ => false
  }

  function EvidenceOf(s: Step): seq<Evidence> {
    match s
    case Capture(_, _, _, evidence) => evidence
    case Verify(_, _, _, _, _, evidence, _) => evidence
    case LeaveCourse(_, _, evidence) => evidence
    case AbortRun(_, _, evidence) => evidence
    case _ => []
  }

  /** What no step changes, and the evidence and the record it adds. */
  predicate Adds(r: Run, s: Step, at: int, next: Run) {
    && next.id == r.id && next.planId == r.planId && next.planRevision == r.planRevision && next.planDigest == r.planDigest && next.start == r.start
    && next.createdAt == r.createdAt && next.updatedAt == at && next.revision == r.revision + 1
    && next.evidence == r.evidence + EvidenceOf(s)
    && (if s.Verify? then |next.records| == |r.records| + 1 && r.records <= next.records else next.records == r.records)
  }

  lemma MutatedAdds(r: Run, s: Step, at: int, next: Run)
    requires |r.tasks| == |r.outbox| && Mutated(r, s, at) == Ok(next)
    ensures Adds(r, s, at, Stamped(next, at))
  {
    hide FreshEvidence, ExpectedLevel, AllPassed, CriteriaCover, FindTask, AbortedTask, AbortedOutbox;
    assert s.LinkMission? || s.RequireReconcile? ==> r.evidence + [] == r.evidence;
  }

  lemma FreshIsNew(r: Run, evidence: seq<Evidence>)
    ensures FreshEvidence(r, evidence) <==> NewEvidence(r, evidence)
  {
  }

  lemma CoverIsForEach(criteria: seq<Criterion>, ids: seq<string>)
    requires Distinct(ids) && CriteriaCover(criteria, ids)
    ensures CriterionForEach(criteria, ids)
  {
    forall id | id in ids ensures exists i :: 0 <= i < |criteria| && criteria[i].acceptanceId == id {
      var k := Verdicts.CoverAll(criteria, ids, id);
    }
  }

  /** The guard of a step on the i-th task. */
  lemma TaskCalls(r: Run, i: nat, s: Step, at: int, next: Run)
    requires i < |r.tasks| == |r.outbox| && !s.AbortRun? && FindTask(r.tasks, s.stepId) == Some(i) && Mutated(r, s, at) == Ok(next)
    requires Distinct(r.tasks[i].input.acceptanceIds) && r.tasks[i].bindingKey == Key(r, r.tasks[i].input.stepId)
    requires r.condition != Aborted && (r.tasks[i].state == TaskAborted ==> r.condition == Aborted)
    ensures Calls(r, r.tasks[i], s)
  {
    hide ExpectedLevel, AllPassed, FindTask, FreshEvidence, NewEvidence, CriteriaCover, CriterionForEach;
    FreshIsNew(r, EvidenceOf(s));
    if s.Verify? {
      CoverIsForEach(s.criteria, r.tasks[i].input.acceptanceIds);
    }
  }

  lemma ValidTasks(r: Run, i: nat)
    requires ValidRun(r) && i < |r.tasks|
    ensures Distinct(r.tasks[i].input.acceptanceIds) && r.tasks[i].bindingKey == Key(r, r.tasks[i].input.stepId) && |r.tasks| == |r.outbox|
    ensures r.tasks[i].state == TaskAborted ==> r.condition == Aborted
  {
    hide ValidOutbox, ValidRecord, ValidAbort, ExpectedLevel, SomeTask, StepIds;
    assert ValidTask(r.tasks[i], r) && ValidSequence(r, i);
  }

  /** A step of a reachable run is accepted only on the task at its frontier, and with everything said that the
      state of the work asks for; an abort only with the operator's confirmation and evidence. It adds its evidence
      and its record, and changes nothing of what the run is bound to. */
  lemma StepCalls(o: Origin, events: seq<Event>, r: Run, s: Step, at: int, next: Run) returns (k: nat)
    requires Reaches(o, events, r) && Perform(r, s, at) == Ok(next)
    ensures FrontierAt(r, k) && k < |r.tasks| && r.condition !in {Aborted, RunVerified}
    ensures Calls(r, r.tasks[k], s) || CallsForAbort(r, s, at)
    ensures Adds(r, s, at, next)
  {
    hide Reaches, Mutated, ValidRun, Calls, CallsForAbort, Adds, Facts, FindTask;
    k := RunFrontier(o, events, r);
    if r.condition in {Aborted, RunVerified} {
      EndedIsFinal(o, events, r, s, at);
    }
    ValidLengths(r);
    FrontierTask(r, k);
    var m := Mutated(r, s, at).value;
    MutatedAdds(r, s, at, m);
    ValidFacts(r);
    ValidFacts(next);
    if s.AbortRun? {
      AbortCalls(r, s, at, m);
    } else {
      var i := Found(r, s, at, m);
      ValidTasks(r, i);
      TaskCalls(r, i, s, at, m);
      StampIrrelevant(r, k, m, 0, at);
      AtFrontierOnly(r, k, i, s, at, m);
    }
  }

  lemma AbortCalls(r: Run, s: Step, at: int, next: Run)
    requires |r.tasks| == |r.outbox| && s.AbortRun? && Mutated(r, s, at) == Ok(next)
    ensures CallsForAbort(r, s, at)
  {
    hide ExpectedLevel;
  }

  lemma Found(r: Run, s: Step, at: int, next: Run) returns (i: nat)
    requires |r.tasks| == |r.outbox| && !s.AbortRun? && Mutated(r, s, at) == Ok(next)
    ensures i < |r.tasks| && FindTask(r.tasks, s.stepId) == Some(i)
  {
    hide FindTask, Link, Reconcile, CaptureStep, VerifyStep, OffCourseStep;
    i := FindTask(r.tasks, s.stepId).value;
  }

  lemma AtFrontierOnly(r: Run, k: nat, i: nat, s: Step, at: int, next: Run)
    requires FrontierAt(r, k) && i < |r.tasks| == |r.outbox| && !s.AbortRun? && FindTask(r.tasks, s.stepId) == Some(i)
    requires Mutated(r, s, at) == Ok(next) && Facts(r) && Facts(next)
    ensures i == k
  {
    hide Facts, FrontierAt, Advances, FindTask, Link, Reconcile, CaptureStep, VerifyStep, OffCourseStep, Calls;
    match s {
      case LinkMission(_, key, missionId) => LinkAdvances(r, k, i, key, missionId, at, next);
      case RequireReconcile(_, key, error) => ReconcileAdvances(r, k, i, key, error, at, next);
      case Capture(_, missionId, baseline, evidence) => CaptureAdvances(r, k, i, missionId, baseline, evidence, at, next);
      case LeaveCourse(_, reason, evidence) => OffCourseAdvances(r, k, i, reason, evidence, at, next);
      case Verify(_, _, _, _, criteria, _, _) =>
        if forall j :: 0 <= j < |criteria| ==> criteria[j].outcome == Passed {
          PassedAdvances(r, k, i, s, at, next);
        } else {
          FailedAdvances(r, k, i, s, at, next);
        }
    }
  }
}
