/** What each step of a Delivery Run changes, field by field, and what its tasks hold in each state. */
module DeliveryRunEffects {
  import opened Wrappers
  import opened DeliveryRuns
  import opened DeliveryFrontier
  import Steps = DeliveryRunSteps

  predicate EveryPassed(criteria: seq<Criterion>) {
    forall i :: 0 <= i < |criteria| ==> criteria[i].outcome == Passed
  }

  function TaskStateAfter(s: Step): TaskState {
    match s
    case LinkMission(_, _, _) => MissionLinked
    case RequireReconcile(_, _, _) => TaskReconcile
    case Capture(_, _, _, _) => Captured
    case Verify(_, _, _, _, criteria, _, _) => if EveryPassed(criteria) then Verified else Failed
    case LeaveCourse(_, _, _) => TaskOffCourse
    case AbortRun(_, _, _) => TaskAborted
  }

  /** The task a step is on: its mission, what was captured, and the record that judged it. */
  predicate TaskAfter(t: Task, s: Step, t': Task) {
    && t'.input == t.input && t'.expected == t.expected && t'.bindingKey == t.bindingKey
    && t'.state == TaskStateAfter(s)
    && t'.missionId == (if s.LinkMission? then s.missionId else t.missionId)
    && t'.baseline == (if s.Capture? then Some(s.baseline) else t.baseline)
    && t'.verificationId == (if s.Verify? then s.id else t.verificationId)
  }

  /** The outbox entry of that task; an applied one stays as it is. */
  predicate OutboxAfter(o: Outbox, s: Step, at: int, o': Outbox) {
    && o'.stepId == o.stepId && o'.bindingKey == o.bindingKey && o'.payloadDigest == o.payloadDigest
    && (if s.LinkMission? then o'.state == Applied && o'.missionId == s.missionId && o'.error == "" && o'.updatedAt == at
        else if s.RequireReconcile? then o'.state == OutboxReconcile && o'.missionId == o.missionId && o'.error == s.error && o'.updatedAt == at
        else if s.LeaveCourse? && o.state != Applied
        then o'.state == Blocked && o'.missionId == o.missionId && Shortened(s.reason, o'.error) && o'.updatedAt == at
        else if s.AbortRun? && o.state != Applied
        then o'.state == Canceled && o'.missionId == "" && Shortened(s.reason, o'.error) && o'.updatedAt == at
        else o' == o)
  }

  /** As much of a text as there is room for. */
  predicate Shortened(text: string, short: string) {
    short <= text && (short == text || |short| == 500) && |short| <= 500
  }

  /** The task after a verified one expects what was left to it, and its mission is released. */
  predicate Released(t: Task, o: Outbox, digest: string, at: int, t': Task, o': Outbox) {
    && t'.input == t.input && t'.state == t.state && t'.bindingKey == t.bindingKey && t'.missionId == t.missionId && t'.baseline == t.baseline
    && t'.verificationId == t.verificationId && t'.expected == digest
    && o'.stepId == o.stepId && o'.bindingKey == o.bindingKey && o'.payloadDigest == o.payloadDigest && o'.missionId == o.missionId
    && o'.error == o.error && o'.state == Ready && o'.updatedAt == at
  }

  /** The i-th task and its entry change, after a passed verification the next one is released, and no other is touched. */
  predicate TasksAfter(r: Run, i: nat, s: Step, at: int, tasks: seq<Task>, outbox: seq<Outbox>)
    requires i < |r.tasks| == |r.outbox|
  {
    && |tasks| == |r.tasks| == |outbox|
    && TaskAfter(r.tasks[i], s, tasks[i]) && OutboxAfter(r.outbox[i], s, at, outbox[i])
    && forall j :: 0 <= j < |r.tasks| && j != i ==>
         if j == i + 1 && tasks[i].state == Verified
         then match r.tasks[i].baseline
              case None => false
              case Some(b) => Released(r.tasks[j], r.outbox[j], b.digest, at, tasks[j], outbox[j])
         else tasks[j] == r.tasks[j] && outbox[j] == r.outbox[j]
  }

  /** An abort ends every task that is not verified. */
  predicate AllAborted(r: Run, s: Step, at: int, tasks: seq<Task>, outbox: seq<Outbox>)
    requires |r.tasks| == |r.outbox|
  {
    && |tasks| == |r.tasks| == |outbox|
    && forall j :: 0 <= j < |r.tasks| ==>
         if r.tasks[j].state == Verified then tasks[j] == r.tasks[j] && outbox[j] == r.outbox[j]
         else TaskAfter(r.tasks[j], s, tasks[j]) && OutboxAfter(r.outbox[j], s, at, outbox[j])
  }

  /** The condition of the run, what stands in its way, and how it was aborted. */
  predicate RunAfter(r: Run, i: nat, s: Step, at: int, next: Run) {
    match s
    case LinkMission(_, _, _) => next.condition == Active && next.blocker == "" && next.abort == r.abort
    case RequireReconcile(_, _, error) => next.condition == Reconciling && next.blocker == error && next.abort == r.abort
    case Capture(_, _, _, _) => next.condition == AwaitingVerification && next.blocker == "" && next.abort == r.abort
    case Verify(_, _, _, _, criteria, _, note) =>
      && next.abort == r.abort
      && (if !EveryPassed(criteria) then next.condition == RunBlocked && next.blocker == note
          else next.condition == (if i + 1 == |r.tasks| then RunVerified else Active) && next.blocker == "")
    case LeaveCourse(_, reason, _) => next.condition == OffCourse && next.blocker == reason && next.abort == r.abort
    case AbortRun(_, reason, evidence) =>
      && next.condition == Aborted && next.blocker == reason
      && match next.abort
         case None => false
         case Some(abort) =>
           && abort.fromCondition == r.condition && abort.reason == reason && abort.abortedAt == at
           && |abort.evidenceIds| == |evidence| && forall j :: 0 <= j < |evidence| ==> abort.evidenceIds[j] == evidence[j].id
  }

  /** A verification leaves its record: what it found before and after, and whether all criteria passed. */
  predicate Recorded(r: Run, i: nat, s: Step, at: int, next: Run)
    requires i < |r.tasks|
  {
    if s.Verify? then
      && |next.records| == |r.records| + 1 && next.records[..|r.records|] == r.records
      && var v := next.records[|r.records|];
         && v.id == s.id && v.stepId == r.tasks[i].input.stepId && v.planDigest == r.planDigest && v.missionId == s.missionId && v.criteria == s.criteria
         && v.before == s.baseline.digest == v.after && v.verifiedAt == at && v.passed == EveryPassed(s.criteria)
    else next.records == r.records
  }

  /** How far the run has come: nothing captured, something captured, everything verified. */
  predicate LevelShows(r: Run) {
    match r.level
    case Planned =>
      && (forall i :: 0 <= i < |r.tasks| ==> r.tasks[i].baseline.None?)
      && (exists i :: 0 <= i < |r.tasks| && r.tasks[i].state != Verified)
    case ImplementedLocally =>
      && (exists i :: 0 <= i < |r.tasks| && r.tasks[i].baseline.Some?)
      && (exists i :: 0 <= i < |r.tasks| && r.tasks[i].state != Verified)
    case VerifiedLocally => forall i :: 0 <= i < |r.tasks| ==> r.tasks[i].state == Verified
  }

  lemma LevelMeans(r: Run)
    requires r.level == ExpectedLevel(r.tasks)
    ensures LevelShows(r)
  {
  }

  lemma WorkAfter(r: Run, i: nat, s: Step, at: int, next: Run)
    requires i < |r.tasks| == |r.outbox| && !s.AbortRun? && !s.Verify? && FindTask(r.tasks, s.stepId) == Some(i)
    requires Mutated(r, s, at) == Ok(next)
    ensures TasksAfter(r, i, s, at, next.tasks, next.outbox) && RunAfter(r, i, s, at, next) && Recorded(r, i, s, at, next)
  {
    hide FindTask, FreshEvidence, ExpectedLevel, VerifyStep, AbortStep, Released, EveryPassed;
  }

  lemma VerifiedAfter(r: Run, i: nat, s: Step, at: int, next: Run)
    requires i < |r.tasks| == |r.outbox| && s.Verify? && VerifyStep(r, i, s, at) == Ok(next)
    ensures TasksAfter(r, i, s, at, next.tasks, next.outbox) && RunAfter(r, i, s, at, next) && Recorded(r, i, s, at, next)
  {
    hide FreshEvidence, ExpectedLevel, CriteriaCover;
  }

  lemma AbortedAfter(r: Run, s: Step, at: int, next: Run)
    requires |r.tasks| == |r.outbox| && s.AbortRun? && AbortStep(r, s.confirmed, s.reason, s.evidence, at) == Ok(next)
    ensures AllAborted(r, s, at, next.tasks, next.outbox) && RunAfter(r, 0, s, at, next) && next.records == r.records
  {
    hide FreshEvidence, ExpectedLevel;
  }

  lemma VerifyMutated(r: Run, i: nat, s: Step, at: int)
    requires i < |r.tasks| == |r.outbox| && s.Verify? && FindTask(r.tasks, s.stepId) == Some(i)
    ensures Mutated(r, s, at) == VerifyStep(r, i, s, at)
  {
    hide FindTask, VerifyStep;
  }

  lemma AbortMutated(r: Run, s: Step, at: int)
    requires |r.tasks| == |r.outbox| && s.AbortRun?
    ensures Mutated(r, s, at) == AbortStep(r, s.confirmed, s.reason, s.evidence, at)
  {
    hide AbortStep;
  }

  lemma LevelShown(r: Run)
    requires Facts(r)
    ensures LevelShows(r)
  {
    hide ExpectedLevel, LevelShows;
    LevelMeans(r);
  }

  lemma AnyFrontier(r: Run, k: nat, s: Step, at: int, next: Run)
    requires s.AbortRun? && k < |r.tasks| && RunAfter(r, 0, s, at, next) && next.records == r.records
    ensures RunAfter(r, k, s, at, next) && Recorded(r, k, s, at, next)
  {
  }

  lemma StampedAfter(r: Run, k: nat, s: Step, at: int, m: Run)
    requires k < |r.tasks| == |r.outbox|
    ensures RunAfter(r, k, s, at, m) ==> RunAfter(r, k, s, at, Stamped(m, at))
    ensures Recorded(r, k, s, at, m) ==> Recorded(r, k, s, at, Stamped(m, at))
  {
    hide EveryPassed;
  }

  /** A step of a reachable run changes the task at its frontier and what the run says of it; a passed verification
      releases the next task, an abort ends all that are not verified. The level is the one the tasks show. */
  lemma StepEffects(o: Origin, events: seq<Event>, r: Run, s: Step, at: int, next: Run) returns (k: nat)
    requires Reaches(o, events, r) && Perform(r, s, at) == Ok(next)
    ensures FrontierAt(r, k) && k < |r.tasks| == |r.outbox|
    ensures if s.AbortRun? then AllAborted(r, s, at, next.tasks, next.outbox) else TasksAfter(r, k, s, at, next.tasks, next.outbox)
    ensures RunAfter(r, k, s, at, next) && Recorded(r, k, s, at, next) && LevelShows(next)
  {
    hide Reaches, Mutated, ValidRun, Facts, FindTask, FrontierAt, Steps.Calls, Steps.CallsForAbort, Steps.Adds, AllAborted, TasksAfter, RunAfter, LevelShows,
      AbortStep, VerifyStep;
    k := Steps.StepCalls(o, events, r, s, at, next);
    ValidFacts(next);
    ValidLengths(r);
    LevelShown(next);
    var m := Mutated(r, s, at).value;
    if s.AbortRun? {
      AbortMutated(r, s, at);
      AbortedAfter(r, s, at, m);
      AnyFrontier(r, k, s, at, m);
    } else {
      var i := Steps.Found(r, s, at, m);
      ValidFacts(r);
      StampIrrelevant(r, k, m, 0, at);
      Steps.AtFrontierOnly(r, k, i, s, at, m);
      if s.Verify? {
        VerifyMutated(r, i, s, at);
        VerifiedAfter(r, i, s, at, m);
      } else {
        WorkAfter(r, i, s, at, m);
      }
    }
    StampedAfter(r, k, s, at, m);
  }
}
