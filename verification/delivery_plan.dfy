/** The Delivery Plan: definition, readiness lint, definition updates and phase transitions. */
module DeliveryPlans {
  import opened Wrappers

  datatype Phase =
    | Draft | Planning | NeedsDecision | ReadyForApproval | Approved
    | Executing | Verifying | ReadyToRelease | Blocked | Done | Canceled

  datatype Requirement = Requirement(id: string, text: string)
  datatype DevStep = DevStep(id: string, title: string, outcome: string,
                       requirementIds: seq<string>, scopePaths: seq<string>, checks: seq<string>)
  datatype Criterion = Criterion(id: string, text: string, requirementIds: seq<string>)

  datatype PoArtifact = PoArtifact(user: string, problem: string, outcome: string, value: string,
                                   nonGoals: seq<string>, assumptions: seq<string>, openQuestions: seq<string>)
  datatype BaArtifact = BaArtifact(requirements: seq<Requirement>, dependencies: seq<string>,
                                   edgeCases: seq<string>, constraints: seq<string>, openQuestions: seq<string>)
  datatype DevArtifact = DevArtifact(architecture: string, steps: seq<DevStep>, risks: seq<string>,
                                     rollback: string, openQuestions: seq<string>)
  datatype QaArtifact = QaArtifact(acceptanceCriteria: seq<Criterion>, testStrategy: string,
                                   regressionChecks: seq<string>, releaseRequired: bool,
                                   releaseChecks: seq<string>, openQuestions: seq<string>)
  datatype Roles = Roles(po: PoArtifact, ba: BaArtifact, dev: DevArtifact, qa: QaArtifact)

  /** A stored digest field: empty, a digest of some recorded tree, or the digest of the
      discovery placeholder for a workspace. */
  datatype TreeDigest = Missing | Recorded(digest: string) | Discovery(workspace: string) | DiscoveryInstructions(workspace: string)

  datatype Baseline = Baseline(head: string, workingTree: TreeDigest, instructions: TreeDigest)
  datatype Classification = Classification(intent: string, depth: string, risk: string,
                                           dataClasses: seq<string>, mutationSurfaces: seq<string>)
  datatype Authority = Authority(workspaceWrite: bool, commit: bool, push: bool, deploy: bool,
                                 network: bool, serviceControl: bool, destructive: bool, externalMessages: bool)

  /** What the definition digest covers. A digest is represented by the definition it was
      computed from, so equal digests mean equal definitions. */
  datatype Definition = Definition(id: string, title: string, request: string, workspace: string,
                                   baseline: Baseline, classification: Classification, roles: Roles,
                                   unresolvedQuestions: seq<string>, authority: Authority)

  datatype Approval = Approval(digest: Option<Definition>, approvedAt: Option<int>, planRevision: Option<int>)
  datatype Gates = Gates(implementationCaptured: bool, qaPassed: bool, releaseVerified: bool)

  const NO_APPROVAL := Approval(None, None, None)
  const NO_GATES := Gates(false, false, false)

  datatype Plan = Plan(def: Definition, capturedAt: Option<int>, revision: int, phase: Phase,
                       approval: Approval, gates: Gates, blocker: string, createdAt: int, updatedAt: int)

  const ApprovalPhases: set<Phase> := {Approved, Executing, Verifying, ReadyToRelease, Done}
  const TerminalPhases: set<Phase> := {Done, Canceled}

  // ---------------------------------------------------------------- readiness lint

  datatype Finding = Finding(code: string, subject: string)
  datatype Trace = Trace(requirementId: string, stepIds: seq<string>, acceptanceIds: seq<string>, complete: bool)
  datatype Readiness = Readiness(ready: bool, errors: seq<Finding>, traceability: seq<Trace>)

  predicate HasDiscoveryBaseline(d: Definition) {
    && d.workspace != ""
    && d.baseline == Baseline("unborn", Discovery(d.workspace), DiscoveryInstructions(d.workspace))
  }

  function OpenQuestions(d: Definition): seq<string> {
    d.unresolvedQuestions + d.roles.po.openQuestions + d.roles.ba.openQuestions
    + d.roles.dev.openQuestions + d.roles.qa.openQuestions
  }

  function StepsFor(steps: seq<DevStep>, requirementId: string): (ids: seq<string>) {
    if steps == [] then []
    else (if requirementId in steps[0].requirementIds then [steps[0].id] else []) + StepsFor(steps[1..], requirementId)
  }

  function CriteriaFor(criteria: seq<Criterion>, requirementId: string): (ids: seq<string>) {
    if criteria == [] then []
    else (if requirementId in criteria[0].requirementIds then [criteria[0].id] else []) + CriteriaFor(criteria[1..], requirementId)
  }

  predicate CoveredByStep(d: Definition, id: string) {
    exists s :: s in d.roles.dev.steps && id in s.requirementIds
  }

  predicate CoveredByCriterion(d: Definition, id: string) {
    exists c :: c in d.roles.qa.acceptanceCriteria && id in c.requirementIds
  }

  /** Every piece of plain text and every list that must not be empty. */
  predicate FieldsPresent(p: Plan) {
    var d := p.def;
    && d.roles.po.user != "" && d.roles.po.problem != "" && d.roles.po.outcome != "" && d.roles.po.value != ""
    && d.roles.po.nonGoals != [] && d.workspace != "" && d.baseline.head != ""
    && d.baseline.workingTree != Missing && d.baseline.instructions != Missing && p.capturedAt.Some?
    && d.classification.intent != "" && d.classification.depth != "" && d.classification.risk != ""
    && d.roles.ba.requirements != [] && d.roles.dev.architecture != "" && d.roles.dev.steps != []
    && d.roles.dev.rollback != "" && d.roles.qa.acceptanceCriteria != [] && d.roles.qa.testStrategy != ""
    && d.roles.qa.regressionChecks != [] && (d.roles.qa.releaseRequired ==> d.roles.qa.releaseChecks != [])
  }

  /** Readiness apart from the discovery-baseline rule. */
  predicate Complete(p: Plan) {
    var d := p.def;
    && FieldsPresent(p)
    && OpenQuestions(d) == []
    && (forall r :: r in d.roles.ba.requirements ==> CoveredByStep(d, r.id) && CoveredByCriterion(d, r.id))
    && (forall s :: s in d.roles.dev.steps ==> s.requirementIds != [] && s.scopePaths != [] && s.checks != [])
    && (forall c :: c in d.roles.qa.acceptanceCriteria ==> c.requirementIds != [])
  }

  predicate ReadyPlan(p: Plan) {
    Complete(p) && !HasDiscoveryBaseline(p.def)
  }

  lemma {:induction false} StepsForFinds(steps: seq<DevStep>, id: string)
    ensures StepsFor(steps, id) != [] <==> exists s :: s in steps && id in s.requirementIds
  {
    if steps != [] {
      StepsForFinds(steps[1..], id);
      assert steps == [steps[0]] + steps[1..];
    }
  }

  lemma {:induction false} CriteriaForFinds(criteria: seq<Criterion>, id: string)
    ensures CriteriaFor(criteria, id) != [] <==> exists c :: c in criteria && id in c.requirementIds
  {
    if criteria != [] {
      CriteriaForFinds(criteria[1..], id);
      assert criteria == [criteria[0]] + criteria[1..];
    }
  }

  method StepIdsFor(steps: seq<DevStep>, requirementId: string) returns (ids: seq<string>)
    ensures ids == StepsFor(steps, requirementId)
  {
    ids := [];
    for i := 0 to |steps|
      invariant StepsFor(steps, requirementId) == ids + StepsFor(steps[i..], requirementId)
    {
      assert steps[i..][1..] == steps[i + 1..];
      if requirementId in steps[i].requirementIds {
        assert StepsFor(steps[i..], requirementId) == [steps[i].id] + StepsFor(steps[i + 1..], requirementId);
        assert ids + ([steps[i].id] + StepsFor(steps[i + 1..], requirementId)) == ids + [steps[i].id] + StepsFor(steps[i + 1..], requirementId);
        ids := ids + [steps[i].id];
      } else {
        assert StepsFor(steps[i..], requirementId) == [] + StepsFor(steps[i + 1..], requirementId) == StepsFor(steps[i + 1..], requirementId);
      }
    }
  }

  method CriterionIdsFor(criteria: seq<Criterion>, requirementId: string) returns (ids: seq<string>)
    ensures ids == CriteriaFor(criteria, requirementId)
  {
    ids := [];
    for i := 0 to |criteria|
      invariant CriteriaFor(criteria, requirementId) == ids + CriteriaFor(criteria[i..], requirementId)
    {
      assert criteria[i..][1..] == criteria[i + 1..];
      if requirementId in criteria[i].requirementIds {
        assert CriteriaFor(criteria[i..], requirementId) == [criteria[i].id] + CriteriaFor(criteria[i + 1..], requirementId);
        assert ids + ([criteria[i].id] + CriteriaFor(criteria[i + 1..], requirementId)) == ids + [criteria[i].id] + CriteriaFor(criteria[i + 1..], requirementId);
        ids := ids + [criteria[i].id];
      } else {
        assert CriteriaFor(criteria[i..], requirementId) == [] + CriteriaFor(criteria[i + 1..], requirementId) == CriteriaFor(criteria[i + 1..], requirementId);
      }
    }
  }

  const DISCOVERY_ONLY := "baseline_discovery_only"

  datatype FieldCheck = FieldCheck(failed: bool, code: string)

  /** The fixed field checks, in the order the lint makes them. */
  function FieldChecks(p: Plan): seq<FieldCheck> {
    var d := p.def;
    [ FieldCheck(d.roles.po.user == "", "po_user_missing"),
      FieldCheck(d.roles.po.problem == "", "po_problem_missing"),
      FieldCheck(d.roles.po.outcome == "", "po_outcome_missing"),
      FieldCheck(d.roles.po.value == "", "po_value_missing"),
      FieldCheck(d.roles.po.nonGoals == [], "po_non_goals_missing"),
      FieldCheck(d.workspace == "", "workspace_missing"),
      FieldCheck(d.baseline.head == "", "baseline_head_missing"),
      FieldCheck(d.baseline.workingTree == Missing, "baseline_worktree_missing"),
      FieldCheck(d.baseline.instructions == Missing, "baseline_instructions_missing"),
      FieldCheck(p.capturedAt.None?, "baseline_timestamp_missing"),
      FieldCheck(HasDiscoveryBaseline(d), DISCOVERY_ONLY),
      FieldCheck(d.classification.intent == "", "classification_intent_missing"),
      FieldCheck(d.classification.depth == "", "classification_depth_missing"),
      FieldCheck(d.classification.risk == "", "classification_risk_missing"),
      FieldCheck(d.roles.ba.requirements == [], "ba_requirements_missing"),
      FieldCheck(d.roles.dev.architecture == "", "dev_architecture_missing"),
      FieldCheck(d.roles.dev.steps == [], "dev_steps_missing"),
      FieldCheck(d.roles.dev.rollback == "", "dev_rollback_missing"),
      FieldCheck(d.roles.qa.acceptanceCriteria == [], "qa_acceptance_missing"),
      FieldCheck(d.roles.qa.testStrategy == "", "qa_test_strategy_missing"),
      FieldCheck(d.roles.qa.regressionChecks == [], "qa_regression_missing"),
      FieldCheck(d.roles.qa.releaseRequired && d.roles.qa.releaseChecks == [], "qa_release_checks_missing"),
      FieldCheck(OpenQuestions(d) != [], "unresolved_questions") ]
  }

  /** Only one check is the discovery one; the others fail exactly when a field is missing. */
  lemma FieldChecksMeaning(p: Plan)
    ensures (forall i :: 0 <= i < |FieldChecks(p)| && i != 10 ==> !FieldChecks(p)[i].failed)
            <==> FieldsPresent(p) && OpenQuestions(p.def) == []
    ensures FieldChecks(p)[10] == FieldCheck(HasDiscoveryBaseline(p.def), DISCOVERY_ONLY)
    ensures forall i :: 0 <= i < |FieldChecks(p)| && i != 10 ==> FieldChecks(p)[i].code != DISCOVERY_ONLY
  {
    var d := p.def;
    var c := FieldChecks(p);
    if forall i :: 0 <= i < |c| && i != 10 ==> !c[i].failed {
      assert !c[0].failed && !c[1].failed && !c[2].failed && !c[3].failed && !c[4].failed && !c[5].failed && !c[6].failed;
      assert !c[7].failed && !c[8].failed && !c[9].failed && !c[11].failed && !c[12].failed;
      assert !c[13].failed && !c[14].failed && !c[15].failed && !c[16].failed && !c[17].failed && !c[18].failed;
      assert !c[19].failed && !c[20].failed && !c[21].failed && !c[22].failed;
    }
  }

  /** Findings other than the discovery one. */
  predicate Serious(errors: seq<Finding>) {
    exists f :: f in errors && f.code != DISCOVERY_ONLY
  }

  method LintFields(p: Plan) returns (errors: seq<Finding>)
    ensures Serious(errors) <==> !(FieldsPresent(p) && OpenQuestions(p.def) == [])
    ensures errors == [] <==> FieldsPresent(p) && OpenQuestions(p.def) == [] && !HasDiscoveryBaseline(p.def)
  {
    errors := RaiseFailed(FieldChecks(p));
    FieldChecksMeaning(p);
  }

  method RaiseFailed(checks: seq<FieldCheck>) returns (errors: seq<Finding>)
    ensures errors == [] <==> forall j :: 0 <= j < |checks| ==> !checks[j].failed
    ensures Serious(errors) <==> exists j :: 0 <= j < |checks| && checks[j].failed && checks[j].code != DISCOVERY_ONLY
  {
    errors := [];
    for i := 0 to |checks|
      invariant errors == [] <==> forall j :: 0 <= j < i ==> !checks[j].failed
      invariant Serious(errors) <==> exists j :: 0 <= j < i && checks[j].failed && checks[j].code != DISCOVERY_ONLY
    {
      if checks[i].failed {
        errors := Push(errors, Finding(checks[i].code, ""));
      }
    }
  }

  function Push(errors: seq<Finding>, f: Finding): (r: seq<Finding>)
    ensures r != []
    ensures Serious(r) <==> Serious(errors) || f.code != DISCOVERY_ONLY
  {
    assert f in errors + [f];
    assert forall g :: g in errors + [f] <==> g in errors || g == f;
    errors + [f]
  }

  predicate AllCovered(d: Definition, requirements: seq<Requirement>) {
    forall i :: 0 <= i < |requirements| ==> TraceOf(d, requirements[i].id).complete
  }

  method LintRequirements(d: Definition, initial: seq<Finding>) returns (errors: seq<Finding>, traceability: seq<Trace>)
    ensures errors == [] <==> initial == [] && AllCovered(d, d.roles.ba.requirements)
    ensures Serious(errors) <==> Serious(initial) || !AllCovered(d, d.roles.ba.requirements)
    ensures |traceability| == |d.roles.ba.requirements|
    ensures forall i :: 0 <= i < |traceability| ==> traceability[i] == TraceOf(d, d.roles.ba.requirements[i].id)
  {
    errors, traceability := initial, [];
    var requirements := d.roles.ba.requirements;
    for i := 0 to |requirements|
      invariant |traceability| == i
      invariant forall j :: 0 <= j < i ==> traceability[j] == TraceOf(d, requirements[j].id)
      invariant errors == [] <==> initial == [] && AllCovered(d, requirements[..i])
      invariant Serious(errors) <==> Serious(initial) || !AllCovered(d, requirements[..i])
    {
      assert requirements[..i + 1] == requirements[..i] + [requirements[i]];
      var t := TraceRequirement(d, requirements[i].id);
      if t.stepIds == [] {
        errors := Push(errors, Finding("requirement_missing_step", t.requirementId));
      }
      if t.acceptanceIds == [] {
        errors := Push(errors, Finding("requirement_missing_acceptance", t.requirementId));
      }
      traceability := traceability + [t];
    }
    assert requirements[..|requirements|] == requirements;
  }

  method TraceRequirement(d: Definition, id: string) returns (t: Trace)
    ensures t == TraceOf(d, id)
    ensures t.complete <==> t.stepIds != [] && t.acceptanceIds != []
  {
    var stepIds := StepIdsFor(d.roles.dev.steps, id);
    var acceptanceIds := CriterionIdsFor(d.roles.qa.acceptanceCriteria, id);
    StepsForFinds(d.roles.dev.steps, id);
    CriteriaForFinds(d.roles.qa.acceptanceCriteria, id);
    t := Trace(id, stepIds, acceptanceIds, stepIds != [] && acceptanceIds != []);
  }

  /** The traceability row of one requirement. */
  function TraceOf(d: Definition, id: string): Trace {
    Trace(id, StepsFor(d.roles.dev.steps, id), CriteriaFor(d.roles.qa.acceptanceCriteria, id),
          CoveredByStep(d, id) && CoveredByCriterion(d, id))
  }

  method LintStepsAndCriteria(d: Definition, initial: seq<Finding>) returns (errors: seq<Finding>)
    ensures var bounded := (forall s :: s in d.roles.dev.steps ==> s.requirementIds != [] && s.scopePaths != [] && s.checks != [])
                           && (forall c :: c in d.roles.qa.acceptanceCriteria ==> c.requirementIds != []);
            && (errors == [] <==> initial == [] && bounded)
            && (Serious(errors) <==> Serious(initial) || !bounded)
  {
    errors := initial;
    var steps, criteria := d.roles.dev.steps, d.roles.qa.acceptanceCriteria;
    for i := 0 to |steps|
      invariant var bounded := forall j :: 0 <= j < i ==> steps[j].requirementIds != [] && steps[j].scopePaths != [] && steps[j].checks != [];
                && (errors == [] <==> initial == [] && bounded)
                && (Serious(errors) <==> Serious(initial) || !bounded)
    {
      if steps[i].requirementIds == [] {
        errors := Push(errors, Finding("step_requirements_missing", steps[i].id));
      }
      if steps[i].scopePaths == [] {
        errors := Push(errors, Finding("step_scope_missing", steps[i].id));
      }
      if steps[i].checks == [] {
        errors := Push(errors, Finding("step_checks_missing", steps[i].id));
      }
    }
    ghost var afterSteps := errors;
    for i := 0 to |criteria|
      invariant var bounded := forall j :: 0 <= j < i ==> criteria[j].requirementIds != [];
                && (errors == [] <==> afterSteps == [] && bounded)
                && (Serious(errors) <==> Serious(afterSteps) || !bounded)
    {
      if criteria[i].requirementIds == [] {
        errors := Push(errors, Finding("acceptance_requirements_missing", criteria[i].id));
      }
    }
  }

  // The lint pushes findings in order; a plan is ready exactly when nothing was pushed.
  method LintReadiness(p: Plan) returns (r: Readiness)
    ensures r.ready <==> r.errors == []
    ensures r.ready <==> ReadyPlan(p)
    ensures Serious(r.errors) <==> !Complete(p)
    ensures |r.traceability| == |p.def.roles.ba.requirements|
    ensures forall i :: 0 <= i < |r.traceability| ==> r.traceability[i] == TraceOf(p.def, p.def.roles.ba.requirements[i].id)
  {
    var errors := LintFields(p);
    assert forall r :: r in p.def.roles.ba.requirements <==>
             exists j :: 0 <= j < |p.def.roles.ba.requirements| && p.def.roles.ba.requirements[j] == r;
    var traceability;
    errors, traceability := LintRequirements(p.def, errors);
    errors := LintStepsAndCriteria(p.def, errors);
    r := Readiness(errors == [], errors, traceability);
  }
}
