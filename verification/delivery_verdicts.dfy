/** What it means that a task of a Delivery Run is verified or failed: the criteria its record holds. */
module DeliveryVerdicts {
  import opened Wrappers
  import opened DeliveryRuns
  import Frontier = DeliveryFrontier

  /** The record says of the acceptance id what this outcome says. */
  predicate Says(v: Verification, id: string, outcome: CriterionOutcome) {
    exists k :: 0 <= k < |v.criteria| && v.criteria[k] == Criterion(id, outcome)
  }

  predicate SaysOtherwise(v: Verification, id: string) {
    Says(v, id, NotPassed) || Says(v, id, NotRun)
  }

  /** This record judged what the task captured: passed for every acceptance id of a verified task, and not passed
      or not run for some acceptance id of a failed one. */
  predicate Judges(v: Verification, t: Task) {
    && v.id == t.verificationId && v.stepId == t.input.stepId && v.missionId == t.missionId
    && t.baseline.Some? && v.before == v.after == t.baseline.value.digest
    && (t.state == Verified ==> forall id :: id in t.input.acceptanceIds ==> Says(v, id, Passed) && !SaysOtherwise(v, id))
    && (t.state == Failed ==> exists id :: id in t.input.acceptanceIds && SaysOtherwise(v, id))
  }

  predicate Judged(r: Run, t: Task) {
    t.state in {Verified, Failed} ==> exists j :: 0 <= j < |r.records| && Judges(r.records[j], t)
  }

  predicate AllJudged(r: Run) {
    forall i :: 0 <= i < |r.tasks| ==> Judged(r, r.tasks[i])
  }

  // ---------------------------------------------------------------- criteria that cover the acceptance ids

  function IdSet(ids: seq<string>): set<string> {
    set id | id in ids
  }

  lemma {:induction false} DistinctCount(ids: seq<string>)
    requires Distinct(ids)
    ensures |IdSet(ids)| == |ids|
  {
    if ids == [] {
      assert IdSet(ids) == {};
    } else {
      var init, last := ids[..|ids| - 1], ids[|ids| - 1];
      assert last !in init;
      assert IdSet(ids) == IdSet(init) + {last};
      DistinctCount(init);
    }
  }

  lemma SameCount(a: set<string>, b: set<string>)
    requires a <= b && |a| == |b|
    ensures a == b
  {
    if a != b {
      var x :| x in b && x !in a;
      assert a <= b - {x};
      Smaller(a, b - {x});
    }
  }

  lemma Smaller(a: set<string>, b: set<string>)
    requires a <= b
    ensures |a| <= |b|
  {
    assert b == a + (b - a);
  }

  /** As many different criteria as acceptance ids, all for one of them: there is one for each. */
  lemma CoverAll(criteria: seq<Criterion>, ids: seq<string>, id: string) returns (k: nat)
    requires CriteriaCover(criteria, ids) && Distinct(ids) && id in ids
    ensures k < |criteria| && criteria[k].acceptanceId == id
  {
    var named := seq(|criteria|, i requires 0 <= i < |criteria| => criteria[i].acceptanceId);
    DistinctCount(named);
    DistinctCount(ids);
    forall x | x in IdSet(named) ensures x in IdSet(ids) {
    }
    SameCount(IdSet(named), IdSet(ids));
    assert id in IdSet(named);
    k :| 0 <= k < |named| && named[k] == id;
  }

  /** The record of a verification, and the task as it leaves it. */
  lemma RecordJudges(t: Task, s: Step, planDigest: string, at: int)
    requires s.Verify? && CriteriaCover(s.criteria, t.input.acceptanceIds) && Distinct(t.input.acceptanceIds)
    requires t.baseline.Some? && s.baseline.digest == t.baseline.value.digest
    ensures var passed := AllPassed(s.criteria);
            var v := Verification(s.id, t.input.stepId, planDigest, t.missionId, s.criteria, passed, t.baseline.value.digest, s.baseline.digest, at);
            Judges(v, t.(verificationId := s.id, state := if passed then Verified else Failed))
  {
    var v := Verification(s.id, t.input.stepId, planDigest, t.missionId, s.criteria, AllPassed(s.criteria), t.baseline.value.digest, s.baseline.digest, at);
    if AllPassed(s.criteria) {
      forall id | id in t.input.acceptanceIds ensures Says(v, id, Passed) && !SaysOtherwise(v, id) {
        var k := CoverAll(s.criteria, t.input.acceptanceIds, id);
        assert v.criteria[k] == Criterion(id, Passed);
      }
    } else {
      var k :| 0 <= k < |s.criteria| && s.criteria[k].outcome != Passed;
      assert v.criteria[k] == Criterion(s.criteria[k].acceptanceId, s.criteria[k].outcome);
      assert SaysOtherwise(v, s.criteria[k].acceptanceId);
    }
  }

  // ---------------------------------------------------------------- what steps keep

  /** A task whose verdict is older keeps it. */
  lemma StillJudged(r: Run, t: Task, next: Run, t': Task)
    requires Judged(r, t) && r.records <= next.records
    requires t'.state in {Verified, Failed} ==> t' == t.(expected := t'.expected)
    ensures Judged(next, t')
  {
    hide Says, SaysOtherwise;
    if t'.state in {Verified, Failed} {
      var j :| 0 <= j < |r.records| && Judges(r.records[j], t);
      assert next.records[j] == r.records[j] && Judges(next.records[j], t');
    }
  }

  lemma VerifyJudges(r: Run, i: nat, s: Step, at: int, next: Run)
    requires AllJudged(r) && i < |r.tasks| == |r.outbox| && s.Verify? && VerifyStep(r, i, s, at) == Ok(next)
    requires Distinct(r.tasks[i].input.acceptanceIds)
    ensures AllJudged(next)
  {
    hide Judges, FreshEvidence, ExpectedLevel, CriteriaCover, AllPassed, Judged;
    RecordJudges(r.tasks[i], s, r.planDigest, at);
    forall j | 0 <= j < |next.tasks| ensures Judged(next, next.tasks[j]) {
      if j == i {
        assert Judges(next.records[|r.records|], next.tasks[i]);
        NewlyJudged(next, next.tasks[i], |r.records|);
      } else {
        StillJudged(r, r.tasks[j], next, next.tasks[j]);
      }
    }
  }

  lemma NewlyJudged(r: Run, t: Task, j: nat)
    requires j < |r.records| && Judges(r.records[j], t)
    ensures Judged(r, t)
  {
  }

  lemma OtherJudges(r: Run, s: Step, at: int, next: Run)
    requires AllJudged(r) && |r.tasks| == |r.outbox| && !s.Verify? && Mutated(r, s, at) == Ok(next)
    ensures AllJudged(next)
  {
    hide Judged, FreshEvidence, ExpectedLevel, FindTask;
    forall j | 0 <= j < |next.tasks| ensures Judged(next, next.tasks[j]) {
      StillJudged(r, r.tasks[j], next, next.tasks[j]);
    }
  }

  lemma ValidIds(r: Run, i: nat)
    requires ValidRun(r) && i < |r.tasks|
    ensures |r.tasks| == |r.outbox| && Distinct(r.tasks[i].input.acceptanceIds)
  {
    hide ValidOutbox, ValidSequence, ValidRecord, ValidAbort, ExpectedLevel, SomeTask, StepIds;
    assert ValidTask(r.tasks[i], r);
  }

  lemma PerformJudges(r: Run, s: Step, at: int, next: Run)
    requires AllJudged(r) && Perform(r, s, at) == Ok(next)
    ensures AllJudged(next)
  {
    hide ValidRun, Judged, VerifyStep, AbortStep, Link, Reconcile, CaptureStep, OffCourseStep, FindTask;
    Frontier.ValidLengths(r);
    var m := Mutated(r, s, at).value;
    if s.Verify? {
      ValidIds(r, FindTask(r.tasks, s.stepId).value);
      VerifyJudges(r, FindTask(r.tasks, s.stepId).value, s, at, m);
    } else {
      OtherJudges(r, s, at, m);
    }
    assert forall t: Task :: Judged(m, t) ==> Judged(next, t) by { StampedJudged(m, at); }
  }

  lemma StampedJudged(m: Run, at: int)
    ensures forall t: Task :: Judged(m, t) ==> Judged(Stamped(m, at), t)
  {
    hide Judges;
  }

  lemma CreatedJudged(o: Origin, r: Run)
    requires CreateRun(o) == Ok(r)
    ensures AllJudged(r)
  {
    hide ValidRun, Judges;
  }

  /** In every reachable run a task is verified only on a record that passed every one of its acceptance ids, and
      failed only on one that did not pass some: a single failed criterion keeps the run from being verified. */
  lemma {:induction false} RunJudged(o: Origin, events: seq<Event>, r: Run)
    requires Reaches(o, events, r)
    ensures AllJudged(r)
    decreases |events|
  {
    hide Perform, CreateRun, Reaches, Judged;
    if events == [] {
      Frontier.FirstRun(o, r);
      CreatedJudged(o, r);
    } else {
      var before := Frontier.ExecuteStep(o, events, r);
      RunJudged(o, events[..|events| - 1], before);
      PerformJudges(before, events[|events| - 1].step, events[|events| - 1].at, r);
    }
  }

  // ---------------------------------------------------------------- a verified run

  predicate SameInputs(r: Run, next: Run) {
    |next.tasks| == |r.tasks| && forall i :: 0 <= i < |r.tasks| ==> next.tasks[i].input == r.tasks[i].input
  }

  lemma MutatedInputs(r: Run, s: Step, at: int, next: Run)
    requires |r.tasks| == |r.outbox| && Mutated(r, s, at) == Ok(next)
    ensures SameInputs(r, next)
  {
    hide FreshEvidence, ExpectedLevel, AllPassed, CriteriaCover, FindTask;
  }

  lemma {:induction false} InputsKept(o: Origin, events: seq<Event>, r: Run)
    requires Reaches(o, events, r)
    ensures SameInputs(Initial(o), r)
    decreases |events|
  {
    hide Perform, CreateRun, Reaches, Initial;
    if events == [] {
      Frontier.FirstRun(o, r);
      assert r == Initial(o) by { CreatedInitial(o, r); }
    } else {
      var before := Frontier.ExecuteStep(o, events, r);
      InputsKept(o, events[..|events| - 1], before);
      PerformInputs(before, events[|events| - 1].step, events[|events| - 1].at, r);
    }
  }

  lemma CreatedInitial(o: Origin, r: Run)
    requires CreateRun(o) == Ok(r)
    ensures r == Initial(o)
  {
    hide ValidRun, Initial;
  }

  lemma PerformInputs(r: Run, s: Step, at: int, next: Run)
    requires Perform(r, s, at) == Ok(next)
    ensures SameInputs(r, next)
  {
    hide ValidRun, Mutated;
    Frontier.ValidLengths(r);
    MutatedInputs(r, s, at, Mutated(r, s, at).value);
  }

  /** In a verified run every acceptance id the run was created with has a criterion that passed, in a record on
      exactly the workspace the task captured. */
  lemma VerifiedCriteria(o: Origin, events: seq<Event>, r: Run, i: nat, id: string) returns (v: Verification)
    requires Reaches(o, events, r) && r.condition == RunVerified && i < |o.tasks| && id in o.tasks[i].acceptanceIds
    ensures v in r.records && v.stepId == o.tasks[i].stepId && Criterion(id, Passed) in v.criteria && v.before == v.after
    ensures i < |r.tasks| && r.tasks[i].baseline.Some? && v.after == r.tasks[i].baseline.value.digest
  {
    hide Reaches, SaysOtherwise;
    InputsKept(o, events, r);
    RunJudged(o, events, r);
    Frontier.VerifiedChain(o, events, r, i);
    assert Judged(r, r.tasks[i]);
    var j :| 0 <= j < |r.records| && Judges(r.records[j], r.tasks[i]);
    v := r.records[j];
    assert id in Initial(o).tasks[i].input.acceptanceIds && Initial(o).tasks[i].input.stepId == o.tasks[i].stepId;
    assert Says(v, id, Passed);
  }
}
