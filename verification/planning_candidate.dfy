/** What the candidate of a Planning Run is, read off its source plan and its four reports. */
module PlanningCandidates {
  import opened Wrappers
  import opened DeliveryPlans
  import opened PlanningRuns
  import Phases = DeliveryPlanPhases

  predicate NoRepeats(s: seq<string>) {
    forall i, j :: 0 <= i < j < |s| ==> s[i] != s[j]
  }

  /** x first occurs in a list before y does, if y does at all. */
  predicate FirstBefore(x: string, y: string, all: seq<string>) {
    exists k :: 0 <= k < |all| && all[k] == x && y !in all[..k]
  }

  /** A list without its repetitions: what occurs in it, each once, in the order of the first occurrences. */
  predicate Deduplicated(s: seq<string>, all: seq<string>) {
    && NoRepeats(s) && (forall x :: x in s ==> x in all) && (forall x :: x in all ==> x in s)
    && forall i, j :: 0 <= i < j < |s| ==> FirstBefore(s[i], s[j], all)
  }

  /** These are the four reports of the run, and the definition takes its role artifacts from them. */
  predicate FromReports(t: RoleTable, o: Outputs, d: Definition) {
    && t.po.report == Some(o.po) && t.ba.report == Some(o.ba) && t.qa.report == Some(o.qa) && t.dev.report == Some(o.dev)
    && o.po.artifact == ArtPo(d.roles.po) && o.ba.artifact == ArtBa(d.roles.ba)
    && o.qa.artifact == ArtQa(d.roles.qa) && o.dev.artifact == ArtDev(d.roles.dev)
  }

  /** Every line, with the prefix in front. */
  lemma PrefixedLines(prefix: string, lines: seq<string>)
    ensures |Prefixed(prefix, lines)| == |lines| && forall i :: 0 <= i < |lines| ==> Prefixed(prefix, lines)[i] == prefix + lines[i]
  {
  }

  /** The questions of the source plan, then for each role those the plan already had, those of its artifact,
      and its challenges, by name. */
  function Asked(before: Definition, o: Outputs, after: Definition): seq<string> {
    before.unresolvedQuestions
    + (before.roles.po.openQuestions + after.roles.po.openQuestions + Prefixed("PO challenge: ", o.po.challenges))
    + (before.roles.ba.openQuestions + after.roles.ba.openQuestions + Prefixed("BA challenge: ", o.ba.challenges))
    + (before.roles.qa.openQuestions + after.roles.qa.openQuestions + Prefixed("QA challenge: ", o.qa.challenges))
    + (before.roles.dev.openQuestions + after.roles.dev.openQuestions + Prefixed("DEV challenge: ", o.dev.challenges))
  }

  /** The definition that four reports make of a plan: role artifacts from the reports, all questions
      collected, everything else as it was. */
  predicate Synthesized(before: Definition, o: Outputs, after: Definition) {
    && after == before.(roles := after.roles, unresolvedQuestions := after.unresolvedQuestions)
    && Deduplicated(after.unresolvedQuestions, Asked(before, o, after))
  }

  // ---------------------------------------------------------------- adding what is new

  lemma {:induction false} AddNewDeduplicates(done: seq<string>, all: seq<string>, more: seq<string>)
    requires Deduplicated(done, all)
    ensures Deduplicated(AddNew(done, more), all + more)
    decreases |more|
  {
    hide Deduplicated;
    if more == [] {
      assert all + more == all;
    } else {
      var next := if more[0] in done then done else done + [more[0]];
      OneMore(done, all, more[0], next);
      AddNewDeduplicates(next, all + [more[0]], more[1..]);
      assert all + more == all + [more[0]] + more[1..];
    }
  }

  lemma OneMore(done: seq<string>, all: seq<string>, x: string, next: seq<string>)
    requires Deduplicated(done, all) && next == if x in done then done else done + [x]
    ensures Deduplicated(next, all + [x])
  {
    forall i, j | 0 <= i < j < |next| ensures FirstBefore(next[i], next[j], all + [x]) {
      if j < |done| {
        assert FirstBefore(done[i], done[j], all);
        var k :| 0 <= k < |all| && all[k] == done[i] && done[j] !in all[..k];
        assert (all + [x])[k] == done[i] && (all + [x])[..k] == all[..k];
      } else {
        assert done[i] in all;
        var k :| 0 <= k < |all| && all[k] == done[i];
        assert (all + [x])[k] == done[i] && (all + [x])[..k] == all[..k];
        assert x !in all;
      }
    }
  }

  lemma RoleDeduplicates(done: seq<string>, all: seq<string>, p: Plan, role: Role, report: Report)
    requires Deduplicated(done, all)
    ensures Deduplicated(RoleQuestions(done, p, role, report),
                         all + (PlanQuestions(p, role) + ArtifactQuestions(report.artifact) + Prefixed(RoleLabel(role) + " challenge: ", report.challenges)))
  {
    hide Deduplicated, AddNew, PlanQuestions, ArtifactQuestions, Prefixed;
    var a, b, c := PlanQuestions(p, role), ArtifactQuestions(report.artifact), Prefixed(RoleLabel(role) + " challenge: ", report.challenges);
    AddNewDeduplicates(done, all, a);
    AddNewDeduplicates(AddNew(done, a), all + a, b);
    AddNewDeduplicates(AddNew(AddNew(done, a), b), all + a + b, c);
    assert all + a + b + c == all + (a + b + c);
  }

  lemma QuestionsDeduplicate(p: Plan, o: Outputs)
    ensures Deduplicated(CandidateQuestions(p, o),
                         p.def.unresolvedQuestions
                         + (p.def.roles.po.openQuestions + ArtifactQuestions(o.po.artifact) + Prefixed("PO challenge: ", o.po.challenges))
                         + (p.def.roles.ba.openQuestions + ArtifactQuestions(o.ba.artifact) + Prefixed("BA challenge: ", o.ba.challenges))
                         + (p.def.roles.qa.openQuestions + ArtifactQuestions(o.qa.artifact) + Prefixed("QA challenge: ", o.qa.challenges))
                         + (p.def.roles.dev.openQuestions + ArtifactQuestions(o.dev.artifact) + Prefixed("DEV challenge: ", o.dev.challenges)))
  {
    hide Deduplicated, AddNew, ArtifactQuestions, Prefixed, RoleQuestions;
    var all := p.def.unresolvedQuestions;
    var q := AddNew([], all);
    assert Deduplicated(q, all) by {
      assert Deduplicated([], []) by { NothingAsked(); }
      AddNewDeduplicates([], [], all);
      assert [] + all == all;
    }
    Labels();
    RoleDeduplicates(q, all, p, PO, o.po);
    var q1, all1 := RoleQuestions(q, p, PO, o.po), all + (PlanQuestions(p, PO) + ArtifactQuestions(o.po.artifact) + Prefixed("PO challenge: ", o.po.challenges));
    RoleDeduplicates(q1, all1, p, BA, o.ba);
    var q2, all2 := RoleQuestions(q1, p, BA, o.ba), all1 + (PlanQuestions(p, BA) + ArtifactQuestions(o.ba.artifact) + Prefixed("BA challenge: ", o.ba.challenges));
    RoleDeduplicates(q2, all2, p, QA, o.qa);
    var q3, all3 := RoleQuestions(q2, p, QA, o.qa), all2 + (PlanQuestions(p, QA) + ArtifactQuestions(o.qa.artifact) + Prefixed("QA challenge: ", o.qa.challenges));
    RoleDeduplicates(q3, all3, p, DEV, o.dev);
  }

  lemma NothingAsked()
    ensures Deduplicated([], [])
  {
  }

  lemma Labels()
    ensures RoleLabel(PO) + " challenge: " == "PO challenge: " && RoleLabel(BA) + " challenge: " == "BA challenge: "
    ensures RoleLabel(QA) + " challenge: " == "QA challenge: " && RoleLabel(DEV) + " challenge: " == "DEV challenge: "
  {
  }

  // ---------------------------------------------------------------- the candidate

  /** The previewed definition is what the four reports make of the source plan, and differs from it; the
      challenges are listed by role. */
  lemma CandidateDefinition(r: Run, at: int, c: Candidate)
    requires BuildCandidate(r, at) == Ok(c)
    ensures FromReports(r.roles, c.outputs, c.previewPlanDigest) && Synthesized(r.sourcePlan.def, c.outputs, c.previewPlanDigest)
    ensures c.previewPlanDigest != r.planDigest
    ensures c.challenges == Prefixed("PO: ", c.outputs.po.challenges) + Prefixed("BA: ", c.outputs.ba.challenges)
                            + Prefixed("QA: ", c.outputs.qa.challenges) + Prefixed("DEV: ", c.outputs.dev.challenges)
  {
    hide AddNew, CandidateQuestions, Phases.ValidPlan, Phases.ShapeOk, Complete, Deduplicated, ReadyPlan, Prefixed;
    var o, d := c.outputs, c.previewPlanDigest;
    assert o == ReportsOf(r.roles).value;
    assert d == Phases.MergedDefinition(r.sourcePlan.def, PlanPatch(PatchFor(r.sourcePlan, o)));
    QuestionsDeduplicate(r.sourcePlan, o);
  }
}
