/** Every reachable Delivery Run works on one task at a time: the frontier. */
module DeliveryFrontier {
  import opened Wrappers
  import opened DeliveryRuns

  /** Tasks before the frontier are verified and their missions applied. */
  predicate Done(r: Run, k: nat)
    requires k <= |r.tasks| == |r.outbox|
  {
    forall i :: 0 <= i < k ==> r.tasks[i].state == Verified && r.outbox[i].state == Applied && r.tasks[i].baseline.Some?
  }

  predicate Untouched(t: Task, o: Outbox) {
    t.state == Pending && o.state == Held && t.missionId == "" && t.baseline.None? && t.verificationId == ""
  }

  predicate UntouchedAborted(t: Task, o: Outbox) {
    t.state == TaskAborted && o.state == Canceled && t.missionId == "" && t.baseline.None? && t.verificationId == ""
  }

  /** Tasks after it were never started, or were aborted before they were. */
  predicate Ahead(r: Run, k: nat)
    requires |r.tasks| == |r.outbox|
  {
    forall i :: k < i < |r.tasks| ==>
      if r.condition == Aborted then UntouchedAborted(r.tasks[i], r.outbox[i]) else Untouched(r.tasks[i], r.outbox[i])
  }

  /** The task being worked on, its outbox and the condition of the run go together. */
  predicate AtFrontier(t: Task, o: Outbox, c: Condition) {
    match t.state
    case Pending => o.state == Ready && c in {Preparing, Active} && t.baseline.None?
    case TaskReconcile => o.state == OutboxReconcile && c == Reconciling && t.baseline.None?
    case MissionLinked => o.state == Applied && c == Active && t.baseline.None?
    case Captured => o.state == Applied && c == AwaitingVerification && t.baseline.Some?
    case Failed => o.state == Applied && c == RunBlocked && t.baseline.Some?
    case TaskOffCourse => o.state in {Applied, Blocked} && c == OffCourse
    case TaskAborted => o.state in {Applied, Canceled} && c == Aborted
    case Verified => false
  }

  predicate Follows(previous: Task, t: Task) {
    previous.baseline.Some? && t.expected == previous.baseline.value.digest
  }

  /** What a task expects to find is what its predecessor left, and its own capture differs from that. */
  predicate Chained(r: Run, k: nat)
    requires |r.tasks| == |r.outbox|
  {
    && (|r.tasks| > 0 ==> r.tasks[0].expected == r.start.digest)
    && (forall i :: 0 <= i < |r.tasks| && 0 < i <= k ==> Follows(r.tasks[i - 1], r.tasks[i]))
    && (forall i :: 0 <= i < |r.tasks| && r.tasks[i].baseline.Some? ==> i <= k && r.tasks[i].baseline.value.digest != r.tasks[i].expected)
  }

  predicate FrontierAt(r: Run, k: nat) {
    && k <= |r.tasks| == |r.outbox| && Done(r, k) && Ahead(r, k) && Chained(r, k)
    && (if k < |r.tasks| then AtFrontier(r.tasks[k], r.outbox[k], r.condition) else r.condition == RunVerified)
  }

  /** Steps left with the frontier at k. */
  function Left(r: Run, k: nat): int
    requires k <= |r.tasks|
  {
    if k == |r.tasks| then 0
    else
      var whole := 4 * (|r.tasks| - k);
      match r.tasks[k].state
      case Pending => whole + 1
      case TaskReconcile => whole
      case MissionLinked => whole - 1
      case Captured => whole - 2
      case Failed => 1
      case TaskOffCourse => 1
      case _ => 0
  }

  function Rank(level: Level): nat {
    match level
    case Planned => 0
    case ImplementedLocally => 1
    case VerifiedLocally => 2
  }

  /** What of validity the steps build on. */
  predicate Facts(r: Run) {
    && 1 <= |r.tasks| == |r.outbox| && r.level == ExpectedLevel(r.tasks)
    && (forall i :: 0 < i < |r.tasks| && r.condition != Aborted && r.tasks[i - 1].state != Verified ==> r.outbox[i].state == Held)
  }

  lemma ValidFacts(r: Run)
    requires ValidRun(r)
    ensures Facts(r)
  {
    hide ValidTask, ValidOutbox, ValidRecord, ValidAbort, Distinct, ExpectedLevel, SomeTask;
    forall i | 0 < i < |r.tasks| ensures ValidSequence(r, i) {
    }
  }

  /** One step moves on: fewer steps left, and the delivery level kept or raised. */
  predicate Advances(r: Run, k: nat, next: Run, k': nat)
    requires k <= |r.tasks| && k' <= |next.tasks|
  {
    FrontierAt(next, k') && 0 <= Left(next, k') < Left(r, k) && |next.tasks| == |r.tasks| && Rank(r.level) <= Rank(next.level)
  }

  lemma LevelKept(old_: seq<Task>, new_: seq<Task>)
    requires |old_| == |new_| && forall i :: 0 <= i < |old_| ==> (old_[i].baseline.Some? ==> new_[i].baseline.Some?)
    requires exists i :: 0 <= i < |old_| && old_[i].state != Verified
    ensures Rank(ExpectedLevel(old_)) <= Rank(ExpectedLevel(new_))
  {
    var k :| 0 <= k < |old_| && old_[k].state != Verified;
    if i :| 0 <= i < |old_| && old_[i].baseline.Some? {
      assert new_[i].baseline.Some?;
    }
  }

  /** Work in progress happens at the frontier only. */
  lemma WorkIsFrontier(r: Run, k: nat, i: nat)
    requires FrontierAt(r, k) && i < |r.tasks| && r.condition != Aborted
    requires r.tasks[i].state != Verified && !Untouched(r.tasks[i], r.outbox[i])
    ensures i == k
  {
  }

  /** A change of the frontier task and nothing else. */
  lemma FrontierChange(r: Run, k: nat, t: Task, o: Outbox, next: Run)
    requires FrontierAt(r, k) && k < |r.tasks| && next.tasks == r.tasks[k := t] && next.outbox == r.outbox[k := o] && next.start == r.start
    requires r.condition != Aborted && next.condition != Aborted && AtFrontier(t, o, next.condition)
    requires t.expected == r.tasks[k].expected && (t.baseline.Some? ==> t.baseline.value.digest != t.expected)
    ensures FrontierAt(next, k)
  {
    hide AtFrontier, Untouched;
  }

  lemma LevelUp(r: Run, k: nat, next: Run)
    requires FrontierAt(r, k) && k < |r.tasks| && Facts(r) && Facts(next) && |next.tasks| == |r.tasks|
    requires forall i :: 0 <= i < |r.tasks| ==> (r.tasks[i].baseline.Some? ==> next.tasks[i].baseline.Some?)
    ensures Rank(r.level) <= Rank(next.level)
  {
    hide ExpectedLevel, Done, Ahead, Chained;
    assert r.tasks[k].state != Verified;
    LevelKept(r.tasks, next.tasks);
  }

  lemma FrontierTask(r: Run, k: nat)
    requires FrontierAt(r, k)
    ensures k <= |r.tasks| == |r.outbox| && (k == |r.tasks| ==> r.condition == RunVerified)
    ensures k < |r.tasks| ==>
              AtFrontier(r.tasks[k], r.outbox[k], r.condition)
              && (r.tasks[k].baseline.Some? ==> r.tasks[k].baseline.value.digest != r.tasks[k].expected)
  {
    hide AtFrontier;
  }

  lemma LinkAdvances(r: Run, k: nat, i: nat, key: BindingKey, missionId: string, at: int, next: Run)
    requires FrontierAt(r, k) && i < |r.tasks| && Link(r, i, key, missionId, at) == Ok(next) && Facts(r) && Facts(next)
    ensures i == k && k <= |next.tasks| && Advances(r, k, next, k)
  {
    hide Facts, FrontierAt;
    WorkIsFrontier(r, k, i);
    FrontierTask(r, k);
    FrontierChange(r, k, next.tasks[k], next.outbox[k], next);
    LevelUp(r, k, next);
  }

  lemma ReconcileAdvances(r: Run, k: nat, i: nat, key: BindingKey, error: string, at: int, next: Run)
    requires FrontierAt(r, k) && i < |r.tasks| && Reconcile(r, i, key, error, at) == Ok(next) && Facts(r) && Facts(next)
    ensures i == k && k <= |next.tasks| && Advances(r, k, next, k)
  {
    hide Facts, FrontierAt;
    WorkIsFrontier(r, k, i);
    FrontierTask(r, k);
    FrontierChange(r, k, next.tasks[k], next.outbox[k], next);
    LevelUp(r, k, next);
  }

  lemma CaptureAdvances(r: Run, k: nat, i: nat, missionId: string, baseline: Baseline, evidence: seq<Evidence>, at: int, next: Run)
    requires FrontierAt(r, k) && i < |r.tasks| && CaptureStep(r, i, missionId, baseline, evidence, at) == Ok(next) && Facts(r) && Facts(next)
    ensures i == k && k <= |next.tasks| && Advances(r, k, next, k)
  {
    hide Facts, FrontierAt, FreshEvidence, ExpectedLevel;
    WorkIsFrontier(r, k, i);
    FrontierTask(r, k);
    assert next.outbox == r.outbox[k := r.outbox[k]];
    FrontierChange(r, k, next.tasks[k], next.outbox[k], next);
    LevelUp(r, k, next);
  }

  /** A failed verification blocks the run at its frontier. */
  lemma FailedAdvances(r: Run, k: nat, i: nat, s: Step, at: int, next: Run)
    requires FrontierAt(r, k) && i < |r.tasks| && s.Verify? && VerifyStep(r, i, s, at) == Ok(next) && Facts(r) && Facts(next)
    requires exists j :: 0 <= j < |s.criteria| && s.criteria[j].outcome != Passed
    ensures i == k && k <= |next.tasks| && Advances(r, k, next, k)
  {
    hide Facts, FrontierAt, FreshEvidence, ExpectedLevel, CriteriaCover;
    WorkIsFrontier(r, k, i);
    FrontierTask(r, k);
    assert next.outbox == r.outbox[k := r.outbox[k]];
    FrontierChange(r, k, next.tasks[k], next.outbox[k], next);
    LevelUp(r, k, next);
  }

  /** A passed verification moves the frontier to the next task, or ends the run. */
  lemma PassedAdvances(r: Run, k: nat, i: nat, s: Step, at: int, next: Run)
    requires FrontierAt(r, k) && i < |r.tasks| && s.Verify? && VerifyStep(r, i, s, at) == Ok(next) && Facts(r) && Facts(next)
    requires forall j :: 0 <= j < |s.criteria| ==> s.criteria[j].outcome == Passed
    ensures i == k && k + 1 <= |next.tasks| && Advances(r, k, next, k + 1)
  {
    hide Facts, FrontierAt, FreshEvidence, ExpectedLevel, CriteriaCover;
    WorkIsFrontier(r, k, i);
    FrontierTask(r, k);
    FrontierMoves(r, k, s.id, s.baseline.digest, at, next);
    LevelUp(r, k, next);
  }

  lemma FrontierMoves(r: Run, k: nat, id: string, digest: string, at: int, next: Run)
    requires FrontierAt(r, k) && k < |r.tasks| && r.tasks[k].state == Captured && r.tasks[k].baseline.Some? && r.tasks[k].baseline.value.digest == digest
    requires next.start == r.start
    requires var tasks := r.tasks[k := r.tasks[k].(verificationId := id, state := Verified)];
             if k + 1 < |r.tasks| then
               next.tasks == tasks[k + 1 := tasks[k + 1].(expected := digest)]
               && next.outbox == r.outbox[k + 1 := r.outbox[k + 1].(state := Ready, updatedAt := at)] && next.condition == Active
             else next.tasks == tasks && next.outbox == r.outbox && next.condition == RunVerified
    ensures FrontierAt(next, k + 1)
  {
    FrontierTask(r, k);
    if k + 1 < |r.tasks| {
      assert Untouched(r.tasks[k + 1], r.outbox[k + 1]);
    }
    assert forall i :: 0 <= i < |r.tasks| && i != k && i != k + 1 ==> next.tasks[i] == r.tasks[i] && next.outbox[i] == r.outbox[i];
  }

  lemma AbortAdvances(r: Run, k: nat, confirmed: bool, reason: string, evidence: seq<Evidence>, at: int, next: Run)
    requires FrontierAt(r, k) && |r.tasks| == |r.outbox| && AbortStep(r, confirmed, reason, evidence, at) == Ok(next) && Facts(r) && Facts(next)
    ensures k <= |next.tasks| && Advances(r, k, next, k)
  {
    hide Facts, FreshEvidence, ExpectedLevel, FrontierAt;
    FrontierTask(r, k);
    assert k < |r.tasks|;
    AbortedFrontier(r, k, reason, at, next);
    LevelUp(r, k, next);
  }

  lemma AbortedFrontier(r: Run, k: nat, reason: string, at: int, next: Run)
    requires FrontierAt(r, k) && k < |r.tasks| && r.condition != Aborted && next.condition == Aborted && next.start == r.start
    requires |next.tasks| == |r.tasks| == |next.outbox|
    requires forall i :: 0 <= i < |r.tasks| ==> next.tasks[i] == AbortedTask(r.tasks[i])
    requires forall i :: 0 <= i < |r.tasks| ==> next.outbox[i] == AbortedOutbox(r.tasks[i], r.outbox[i], reason, at)
    ensures FrontierAt(next, k)
  {
    hide Cut;
    forall i | k < i < |r.tasks| ensures UntouchedAborted(next.tasks[i], next.outbox[i]) {
      assert Untouched(r.tasks[i], r.outbox[i]);
    }
    forall i | 0 <= i < |r.tasks| && 0 < i <= k ensures Follows(next.tasks[i - 1], next.tasks[i]) {
      assert Follows(r.tasks[i - 1], r.tasks[i]);
    }
  }

  /** A later task cannot leave the course: the validator refuses a run that touches it. */
  lemma OffCourseAdvances(r: Run, k: nat, i: nat, reason: string, evidence: seq<Evidence>, at: int, next: Run)
    requires FrontierAt(r, k) && i < |r.tasks| && OffCourseStep(r, i, reason, evidence, at) == Ok(next) && Facts(r) && Facts(next)
    ensures i == k && k <= |next.tasks| && Advances(r, k, next, k)
  {
    hide Facts, FreshEvidence, ExpectedLevel, FrontierAt, Cut;
    FrontierTask(r, k);
    OffCourseIsFrontier(r, k, i, next);
    FrontierChange(r, k, next.tasks[k], next.outbox[k], next);
    LevelUp(r, k, next);
  }

  lemma OffCourseIsFrontier(r: Run, k: nat, i: nat, next: Run)
    requires FrontierAt(r, k) && k < |r.tasks| && i < |r.tasks| && r.tasks[i].state != Verified && r.condition != Aborted && Facts(next)
    requires |next.tasks| == |r.tasks| == |next.outbox| && next.condition == OffCourse && next.outbox[i].state in {Applied, Blocked}
    requires forall j :: 0 <= j < |r.tasks| && j != i ==> next.tasks[j] == r.tasks[j]
    ensures i == k
  {
    hide ExpectedLevel;
  }

  // ---------------------------------------------------------------- whole runs

  lemma MutatedAdvances(r: Run, k: nat, s: Step, at: int, next: Run) returns (k': nat)
    requires FrontierAt(r, k) && |r.tasks| == |r.outbox| && Mutated(r, s, at) == Ok(next) && Facts(r) && Facts(next)
    ensures k <= |r.tasks| && k' <= |next.tasks| && Advances(r, k, next, k')
  {
    hide Facts, FrontierAt, Advances, FindTask, Link, Reconcile, CaptureStep, VerifyStep, AbortStep, OffCourseStep;
    FrontierTask(r, k);
    k' := k;
    match s {
      case AbortRun(confirmed, reason, evidence) => AbortAdvances(r, k, confirmed, reason, evidence, at, next);
      case LinkMission(id, key, missionId) => LinkAdvances(r, k, FindTask(r.tasks, id).value, key, missionId, at, next);
      case RequireReconcile(id, key, error) => ReconcileAdvances(r, k, FindTask(r.tasks, id).value, key, error, at, next);
      case Capture(id, missionId, baseline, evidence) =>
        CaptureAdvances(r, k, FindTask(r.tasks, id).value, missionId, baseline, evidence, at, next);
      case LeaveCourse(id, reason, evidence) => OffCourseAdvances(r, k, FindTask(r.tasks, id).value, reason, evidence, at, next);
      case Verify(id, _, _, _, criteria, _, _) =>
        if AllPassed(criteria) {
          PassedAdvances(r, k, FindTask(r.tasks, id).value, s, at, next);
          k' := k + 1;
        } else {
          FailedAdvances(r, k, FindTask(r.tasks, id).value, s, at, next);
        }
    }
  }

  lemma StampIrrelevant(r: Run, k: nat, next: Run, k': nat, at: int)
    ensures Facts(Stamped(next, at)) <==> Facts(next)
    ensures k <= |r.tasks| && k' <= |next.tasks| ==> (Advances(r, k, Stamped(next, at), k') <==> Advances(r, k, next, k'))
  {
    hide AtFrontier, Untouched, UntouchedAborted, Follows, ExpectedLevel;
  }

  lemma MutatedKeeps(r: Run, s: Step, at: int, next: Run)
    requires |r.tasks| == |r.outbox| && Mutated(r, s, at) == Ok(next)
    ensures next.start == r.start && next.revision == r.revision
  {
    hide FreshEvidence, ExpectedLevel, AllPassed, CriteriaCover, FindTask, AbortedTask, AbortedOutbox;
  }

  lemma PerformAdvances(r: Run, k: nat, s: Step, at: int, next: Run) returns (k': nat)
    requires FrontierAt(r, k) && Perform(r, s, at) == Ok(next)
    ensures k <= |r.tasks| && k' <= |next.tasks| && Advances(r, k, next, k') && next.revision == r.revision + 1
  {
    hide ValidRun, FrontierAt, Advances, Mutated, Facts;
    FrontierTask(r, k);
    var m := Mutated(r, s, at).value;
    ValidFacts(r);
    ValidFacts(next);
    StampIrrelevant(r, k, m, 0, at);
    k' := MutatedAdvances(r, k, s, at, m);
    StampIrrelevant(r, k, m, k', at);
    MutatedKeeps(r, s, at, m);
  }

  lemma CreatedFrontier(o: Origin, r: Run)
    requires CreateRun(o) == Ok(r)
    ensures FrontierAt(r, 0) && r.revision == 1 && |r.tasks| == |o.tasks| > 0 && Left(r, 0) == 4 * |o.tasks| + 1
  {
    hide ValidTask, ValidOutbox, ValidSequence, ValidRecord, ValidAbort, Distinct, ExpectedLevel, SomeTask;
  }

  lemma ExecuteStep(o: Origin, events: seq<Event>, r: Run) returns (before: Run)
    requires Reaches(o, events, r) && events != []
    ensures Reaches(o, events[..|events| - 1], before)
    ensures Perform(before, events[|events| - 1].step, events[|events| - 1].at) == Ok(r)
  {
    hide Perform, CreateRun;
    before := Execute(CreateRun(o).value, events[..|events| - 1]).value;
  }

  /** Every reachable run of n tasks has a frontier: the tasks before it are verified with applied
      missions, those after it untouched or aborted unstarted, and every expected workspace is the one
      its predecessor left. No run takes more than 4n + 2 revisions. */
  lemma {:induction false} RunFrontier(o: Origin, events: seq<Event>, r: Run) returns (k: nat)
    requires Reaches(o, events, r)
    ensures FrontierAt(r, k) && |r.tasks| == |o.tasks|
    ensures r.revision == 1 + |events| && r.revision + Left(r, k) <= 4 * |o.tasks| + 2 && Left(r, k) >= 0
    ensures r.revision <= 4 * |o.tasks| + 2
    decreases |events|
  {
    hide Perform, CreateRun, Reaches, FrontierAt;
    if events == [] {
      FirstRun(o, r);
      CreatedFrontier(o, r);
      k := 0;
    } else {
      var before := ExecuteStep(o, events, r);
      var j := RunFrontier(o, events[..|events| - 1], before);
      k := PerformAdvances(before, j, events[|events| - 1].step, events[|events| - 1].at, r);
    }
  }

  lemma FirstRun(o: Origin, r: Run)
    requires Reaches(o, [], r)
    ensures CreateRun(o) == Ok(r)
  {
    hide CreateRun, Perform;
  }

  /** The delivery level of a run never falls. */
  lemma {:induction false} LevelNeverFalls(o: Origin, events: seq<Event>, n: nat, early: Run, late: Run)
    requires n <= |events| && Reaches(o, events[..n], early) && Reaches(o, events, late)
    ensures Rank(early.level) <= Rank(late.level)
    decreases |events|
  {
    hide Perform, CreateRun, FrontierAt, Execute;
    if n == |events| {
      assert events[..n] == events;
    } else {
      var last := |events| - 1;
      hide Reaches;
      var before := ExecuteStep(o, events, late);
      assert events[..last][..n] == events[..n];
      LevelNeverFalls(o, events[..last], n, early, before);
      var k := RunFrontier(o, events[..last], before);
      var _ := PerformAdvances(before, k, events[last].step, events[last].at, late);
    }
  }

  /** A verified or aborted run accepts no further step. */
  lemma EndedIsFinal(o: Origin, events: seq<Event>, r: Run, s: Step, at: int)
    requires Reaches(o, events, r) && r.condition in {Aborted, RunVerified}
    ensures Perform(r, s, at).Err?
  {
    hide Reaches, Perform, Done, Ahead, Chained;
    var k := RunFrontier(o, events, r);
    if Perform(r, s, at).Ok? {
      var k' := PerformAdvances(r, k, s, at, Perform(r, s, at).value);
    }
  }

  /** A verified run is a chain of captured workspaces from the start: each task found exactly what the
      one before left, changed it, and was verified on what it left. */
  lemma VerifiedChain(o: Origin, events: seq<Event>, r: Run, i: nat)
    requires Reaches(o, events, r) && r.condition == RunVerified && i < |r.tasks|
    ensures r.tasks[i].state == Verified && r.tasks[i].baseline.Some?
    ensures r.tasks[i].expected == if i == 0 then o.start.digest else if r.tasks[i - 1].baseline.Some? then r.tasks[i - 1].baseline.value.digest else ""
    ensures r.tasks[i].baseline.value.digest != r.tasks[i].expected
  {
    hide Reaches, AtFrontier;
    var k := RunFrontier(o, events, r);
    SameStart(o, events, r);
    VerifiedEnds(r, k);
    if i > 0 {
      assert Follows(r.tasks[i - 1], r.tasks[i]);
    }
  }

  lemma VerifiedEnds(r: Run, k: nat)
    requires FrontierAt(r, k) && r.condition == RunVerified
    ensures k == |r.tasks|
  {
  }

  lemma {:induction false} SameStart(o: Origin, events: seq<Event>, r: Run)
    requires Reaches(o, events, r)
    ensures r.start == o.start
    decreases |events|
  {
    hide CreateRun, Perform, Reaches;
    if events == [] {
      FirstRun(o, r);
      CreatedStart(o, r);
    } else {
      var before := ExecuteStep(o, events, r);
      SameStart(o, events[..|events| - 1], before);
      StartKept(before, events[|events| - 1].step, events[|events| - 1].at, r);
    }
  }

  lemma CreatedStart(o: Origin, r: Run)
    requires CreateRun(o) == Ok(r)
    ensures r.start == o.start
  {
    hide ValidRun;
  }

  lemma StartKept(r: Run, s: Step, at: int, next: Run)
    requires Perform(r, s, at) == Ok(next)
    ensures next.start == r.start
  {
    hide ValidRun, Mutated;
    ValidLengths(r);
    MutatedKeeps(r, s, at, Mutated(r, s, at).value);
  }

  lemma ValidLengths(r: Run)
    requires ValidRun(r)
    ensures |r.tasks| == |r.outbox|
  {
    hide ValidTask, ValidOutbox, ValidSequence, ValidRecord, ValidAbort, Distinct, ExpectedLevel, SomeTask;
  }
}
