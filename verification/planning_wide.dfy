/** How large a run with long texts is on its way to review. */
module PlanningWide {
  import opened Wrappers
  import opened JsonBytes
  import opened PlanningRuns
  import opened PlanningSteps
  import opened PlanningPaths
  import opened PlanningAcceptance
  import opened PlanningSizes
  import Bound = PlanningBound
  import Growth = PlanningGrowth

  // ---------------------------------------------------------------- texts

  lemma {:induction false} WideBytes(c: char, n: nat)
    ensures TextBytes(Bound.Wide(c, n)) == n * CharBytes(c)
  {
    hide CharBytes;
    var s := Bound.Wide(c, n);
    if n > 0 {
      assert s[1..] == Bound.Wide(c, n - 1);
      WideBytes(c, n - 1);
    }
  }

  lemma ShortTexts()
    ensures TextBytes(ATTEMPT) == 25 && TextBytes("%1") == 2 && TextBytes(ClaimId(0)) == 11 && TextBytes("") == 0
    ensures TextBytes("planning-run-00000001") == 21 && TextBytes("plan-00000001") == 13
  {
    hide TextBytes;
    NoText();
    PlainText(ATTEMPT);
    PlainText("%1");
    PlainText("first-claim");
    PlainText("planning-run-00000001");
    PlainText("plan-00000001");
  }

  lemma PlanTexts()
    ensures TextBytes("title") == 5 && TextBytes("/workspace") == 10 && TextBytes("0000000") == 7 && TextBytes("change") == 6
    ensures TextBytes("standard") == 8 && TextBytes("local_reversible") == 16 && TextBytes("workspace") == 9
  {
    hide TextBytes;
    PlainText("title");
    PlainText("/workspace");
    PlainText("0000000");
    PlainText("change");
    PlainText("standard");
    PlainText("local_reversible");
    PlainText("workspace");
  }

  lemma WorkerTexts()
    ensures TextBytes(PANE.paneId) == TextBytes(PANE.paneTty) == 1536 && PaneBytes(PANE) == 26 + 1538 + 4 + 1 + 1538
    ensures TextBytes(ROLLOUT) == 36 && TextBytes(SOURCE) == 24 && TextBytes(ROLLOUT_PATH) == 12286
  {
    hide TextBytes;
    ShortTexts();
    WideBytes('\U{540d}', 512);
    WideBytes('\U{9053}', 4095);
    WideBytes('0', 24);
    PlainText("/");
    TextTogether("/", Bound.Wide('\U{9053}', 4095));
    RolloutText();
  }

  lemma RolloutText()
    ensures TextBytes(ROLLOUT) == 36
  {
    hide TextBytes;
    PlainText("00000000-0000-0000-");
    PlainText("0000-000000000000");
    TextTogether("00000000-0000-0000-", "0000-000000000000");
  }

  lemma SummaryText(role: Role)
    ensures TextBytes(ReportSummary(role, StComplete)) == RoleChars(role) + 26
  {
    hide TextBytes;
    var name := RoleLabel(role);
    PlainText(name);
    PlainText(" planning report ");
    PlainText("complete");
    PlainText(".");
    TextTogether(name, " planning report ");
    TextTogether(name + " planning report ", "complete");
    TextTogether(name + " planning report " + "complete", ".");
  }

  lemma ChallengeText(i: nat)
    requires i < 6
    ensures TextBytes(Challenges()[i]) == 2221
  {
    hide TextBytes;
    WideBytes('\U{672c}', 740);
    var letter := ["ABCDEF"[i]];
    assert TextBytes(letter) == 1 by { PlainText(letter); }
    TextTogether(letter, Bound.Wide('\U{672c}', 740));
  }

  /** Texts that are all of one length. */
  lemma {:induction false} EvenTexts(texts: seq<string>, n: nat)
    requires forall i :: 0 <= i < |texts| ==> TextBytes(texts[i]) == n
    ensures TextsSum(texts) == |texts| * (n + 2)
  {
    hide TextBytes;
    if texts != [] {
      EvenTexts(texts[..|texts| - 1], n);
    }
  }

  lemma ChallengesBytes(depth: nat)
    ensures TextsBytes(depth, Challenges()) == ListFrame(depth, 6) + 6 * 2223
  {
    hide TextBytes, ListFrame, Challenges;
    forall i | 0 <= i < 6 ensures TextBytes(Challenges()[i]) == 2221 {
      ChallengeText(i);
    }
    EvenTexts(Challenges(), 2221);
  }

  lemma EmptyLists(depth: nat)
    ensures TextsBytes(depth, []) == 2 && RequirementsSum(depth, []) == 0 && StepsSum(depth, []) == 0 && CriteriaSum(depth, []) == 0
    ensures EvidenceSum(depth, []) == 0 && ListFrame(depth, 0) == 2 && Quoted("") == 2
  {
  }

  // ---------------------------------------------------------------- reports

  lemma ArtifactsBytes(depth: nat)
    ensures PoBytes(depth, Bound.EMPTY_PO) == Frame(depth, PO_KEYS) + 14
    ensures BaBytes(depth, Bound.EMPTY_BA) == Frame(depth, BA_KEYS) + 10
    ensures DevBytes(depth, Bound.EMPTY_DEV) == Frame(depth, DEV_KEYS) + 10
    ensures QaBytes(depth, Bound.EMPTY_QA) == Frame(depth, QA_KEYS) + 15
  {
    EmptyLists(depth + 1);
    EmptyLists(depth + 2);
    hide TextsBytes, RequirementsSum, StepsSum, CriteriaSum, ListFrame, Frame, Quoted;
  }

  function ArtifactFrame(depth: nat, role: Role): nat {
    match role
    case PO => Frame(depth, PO_KEYS) + 14
    case BA => Frame(depth, BA_KEYS) + 10
    case DEV => Frame(depth, DEV_KEYS) + 10
    case QA => Frame(depth, QA_KEYS) + 15
  }

  predicate Named(r: Run) {
    r.id == "planning-run-00000001" && r.planId == "plan-00000001" && r.planRevision == 1
  }

  lemma ReportOnBytes(r: Run, role: Role, d: InputDigest, depth: nat)
    requires Named(r)
    ensures ReportBytes(depth, ReportOn(r, role, d))
            == Frame(depth, REPORT_KEYS) + 1 + 23 + 15 + 1 + 2 + RoleChars(role) + 27 + 66 + 10 + ArtifactFrame(depth + 1, role)
               + ListFrame(depth + 1, 6) + 6 * 2223 + 2
  {
    hide TextBytes, TextsBytes, Challenges, Frame, PoBytes, BaBytes, DevBytes, QaBytes, EvidenceSum, ListFrame,
      Digits;
    ShortTexts();
    ArtifactsBytes(depth + 1);
    ChallengesBytes(depth + 1);
    EmptyLists(depth + 1);
    EmptyLists(depth + 2);
    OneDigit();
  }

  lemma ReportOnFits(r: Run, role: Role, d: InputDigest)
    requires Named(r)
    ensures ReportFits(ReportOn(r, role, d))
  {
    hide ReportBytes;
    ReportOnBytes(r, role, d, 0);
    hide ReportBytes, ReportOn;
  }

  // ---------------------------------------------------------------- a role on the plain path

  /** The attempt once its report is in, with this cleanup. */
  function DoneAttempt(b: RunBinding, role: Role, d: InputDigest, at: int, c: Cleanup): Attempt {
    SubmittedAttempt(b, role, d, at).(state := Finished, finishedAt := Some(at), outcome := OutComplete,
                                      summary := ReportSummary(role, StComplete), error := "", cleanup := Some(c))
  }

  function DoneRole(r: Run, role: Role, d: InputDigest, at: int, c: Cleanup): RoleRecord {
    RoleRecord(Completed, Some(d), [DoneAttempt(BindingOf(r), role, d, at, c)], Some(ReportOn(r, role, d)), Some(ReportOn(r, role, d)))
  }

  lemma ReportedIs(r: Run, role: Role, d: InputDigest, at: int)
    ensures ReportedRole(r, role, d, at) == Ok(DoneRole(r, role, d, at, PENDING_CLEANUP))
  {
    hide ClaimedLease, BoundLease, BindingFor, DispatchFor, Challenges;
    assert [SubmittedAttempt(BindingOf(r), role, d, at)][0 := DoneAttempt(BindingOf(r), role, d, at, PENDING_CLEANUP)]
           == [DoneAttempt(BindingOf(r), role, d, at, PENDING_CLEANUP)];
  }

  lemma DoneMoves(r: Run, role: Role, d: InputDigest, at: int, c: Cleanup, c': Cleanup)
    ensures Recleaned(DoneRole(r, role, d, at, c), c') == DoneRole(r, role, d, at, c')
  {
    hide SubmittedAttempt, ReportOn;
    var before, after := DoneAttempt(BindingOf(r), role, d, at, c), DoneAttempt(BindingOf(r), role, d, at, c');
    assert [before][0 := after] == [after];
  }

  /** A time in the years that are written with four digits, and the next one too. */
  predicate Plain(at: int) {
    TimeBytes(at) == TimeBytes(at + 1) == 26
  }

  lemma LeasesBytes(b: RunBinding, role: Role, d: InputDigest, at: int)
    requires Plain(at)
    ensures LeaseBytes(role, ClaimedLease(b, role, d, at)) <= LeaseBytes(role, BoundLease(b, role, d, at)) + 2
    ensures LeaseBytes(role, BoundLease(b, role, d, at)) + 2 == LeaseBytes(role, BoundLease(b, role, d, at).(state := LeaseAdopted))
            == 4155 + 2 * RoleChars(role)
  {
    hide TextBytes, PaneBytes, TimeBytes, RoleChars, BindingFor;
    WorkerTexts();
    NoText();
    assert BindingFor(b, role, d, at).bindDeadlineAt == at + 1 by { Deadline(b, role, d, at); }
  }

  lemma Deadline(b: RunBinding, role: Role, d: InputDigest, at: int)
    ensures BindingFor(b, role, d, at).bindDeadlineAt == at + 1
  {
  }

  lemma MarkerAndWorker(b: RunBinding, role: Role, d: InputDigest, at: int)
    ensures DispatchBytes(role, ATTEMPT, DispatchFor(b, role, d, at)) == 15809 + RoleChars(role)
  {
    hide TextBytes, PaneBytes, RoleChars, BindingFor;
    WorkerTexts();
    ShortTexts();
    OneDigit();
    hide Digits;
  }

  lemma DoneAttemptBytes(b: RunBinding, role: Role, d: InputDigest, at: int, c: Cleanup)
    requires Plain(at)
    ensures AttemptBytes(DoneAttempt(b, role, d, at, c)) == 20962 + 5 * RoleChars(role) + CleanupBytes(c)
  {
    hide TextBytes, LeaseBytes, DispatchBytes, CleanupBytes, TimeBytes, RoleChars, ClaimedLease, BoundLease,
      DispatchFor;
    LeasesBytes(b, role, d, at);
    MarkerAndWorker(b, role, d, at);
    SummaryText(role);
    ShortTexts();
  }

  lemma EarlyAttemptBytes(b: RunBinding, role: Role, d: InputDigest, at: int)
    requires Plain(at)
    ensures AttemptBytes(SpawnedAttempt(b, role, d, at)) <= 21400 && AttemptBytes(BoundAttempt(b, role, d, at)) <= 21400
    ensures AttemptBytes(DispatchedAttempt(b, role, d, at)) <= 21400 && AttemptBytes(SubmittedAttempt(b, role, d, at)) <= 21400
  {
    hide TextBytes, LeaseBytes, DispatchBytes, CleanupBytes, TimeBytes, ClaimedLease, BoundLease, DispatchFor;
    LeasesBytes(b, role, d, at);
    MarkerAndWorker(b, role, d, at);
    ShortTexts();
  }

  function DoneRoleBytes(role: Role): nat {
    match role
    case PO => 35249
    case BA => 35215
    case QA => 35266
    case DEV => 35207
  }

  lemma DoneBytes(r: Run, role: Role, d: InputDigest, at: int, c: Cleanup)
    requires Named(r) && Plain(at)
    ensures RoleBytes(DoneRole(r, role, d, at, c)) == DoneRoleBytes(role) + CleanupBytes(c)
  {
    hide AttemptBytes, ReportBytes, CleanupBytes, DoneAttempt, ReportOn;
    DoneAttemptBytes(BindingOf(r), role, d, at, c);
    ReportOnBytes(r, role, d, 3);
    Growth.OneAttemptBytes(DoneAttempt(BindingOf(r), role, d, at, c));
  }

  lemma CleanupSizes(at: int)
    requires Plain(at)
    ensures CleanupBytes(PENDING_CLEANUP) == 323 && CleanupBytes(ClaimedCleanup(0, at)) == 356
    ensures CleanupBytes(SentCleanup(0, at)) == 375 && CleanupBytes(CompletedCleanup(at)) == 401
  {
    hide TextBytes, TimeBytes, ClaimId;
    ShortTexts();
    OneDigit();
    hide Digits;
  }

  lemma EarlyBytes(state: RoleState, d: InputDigest, a: Attempt)
    requires AttemptBytes(a) <= 21400
    ensures RoleBytes(OneAttempt(state, d, a)) <= 36000
  {
    hide AttemptBytes, ReportBytes;
    Growth.OneAttemptBytes(a);
  }

  lemma EmptyRoleBytes()
    ensures RoleBytes(EMPTY_ROLE) <= 36000
  {
    hide AttemptBytes;
  }

  // ---------------------------------------------------------------- the candidate of four such reports

  lemma {:induction false} SumTogether(a: seq<string>, b: seq<string>)
    ensures TextsSum(a + b) == TextsSum(a) + TextsSum(b)
  {
    hide Quoted;
    if b == [] {
      assert a + b == a;
    } else {
      SumTogether(a, b[..|b| - 1]);
      assert (a + b)[..|a + b| - 1] == a + b[..|b| - 1];
    }
  }

  lemma PrefixedBytes(prefix: string, n: nat)
    requires TextBytes(prefix) == n
    ensures |Prefixed(prefix, Challenges())| == 6 && TextsSum(Prefixed(prefix, Challenges())) == 6 * (n + 2223)
  {
    hide TextBytes, Challenges;
    var texts := Prefixed(prefix, Challenges());
    forall i | 0 <= i < 6 ensures TextBytes(texts[i]) == n + 2221 {
      ChallengeText(i);
      TextTogether(prefix, Challenges()[i]);
    }
    EvenTexts(texts, n + 2221);
  }

  /** The challenges of all roles, each with the name of its role in front. */
  function AllChallenges(tail: string): seq<string> {
    Prefixed("PO" + tail, Challenges()) + Prefixed("BA" + tail, Challenges()) + Prefixed("QA" + tail, Challenges())
    + Prefixed("DEV" + tail, Challenges())
  }

  lemma AllChallengesBytes(tail: string, n: nat, depth: nat)
    requires TextBytes(tail) == n
    ensures TextsBytes(depth, AllChallenges(tail)) == ListFrame(depth, 24) + 24 * (n + 2223) + 54
  {
    hide TextBytes, Challenges, TextsSum, Prefixed, ListFrame;
    PlainText("PO");
    PlainText("BA");
    PlainText("QA");
    PlainText("DEV");
    TextTogether("PO", tail);
    TextTogether("BA", tail);
    TextTogether("QA", tail);
    TextTogether("DEV", tail);
    PrefixedBytes("PO" + tail, n + 2);
    PrefixedBytes("BA" + tail, n + 2);
    PrefixedBytes("QA" + tail, n + 2);
    PrefixedBytes("DEV" + tail, n + 3);
    var po, ba, qa := Prefixed("PO" + tail, Challenges()), Prefixed("BA" + tail, Challenges()), Prefixed("QA" + tail, Challenges());
    SumTogether(po, ba);
    SumTogether(po + ba, qa);
    SumTogether(po + ba + qa, Prefixed("DEV" + tail, Challenges()));
  }

  /** Questions that are all new are all added. */
  lemma {:induction false} AllNew(questions: seq<string>, more: seq<string>)
    requires forall i, j :: 0 <= i < j < |more| ==> more[i] != more[j]
    requires forall q :: q in more ==> q !in questions
    ensures AddNew(questions, more) == questions + more
    decreases |more|
  {
    if more == [] {
      assert questions + more == questions;
    } else {
      var rest := more[1..];
      forall q | q in rest ensures q !in questions + [more[0]] {
        var k :| 0 <= k < |rest| && rest[k] == q;
        assert more[k + 1] == q && more[0] != more[k + 1];
      }
      AllNew(questions + [more[0]], rest);
      assert questions + [more[0]] + rest == questions + more;
    }
  }

  lemma ChallengesDiffer(prefix: string, i: nat, j: nat)
    requires i < j < 6
    ensures prefix + Challenges()[i] != prefix + Challenges()[j]
  {
    assert (prefix + Challenges()[i])[|prefix|] == "ABCDEF"[i] && (prefix + Challenges()[j])[|prefix|] == "ABCDEF"[j];
    assert "ABCDEF"[i] != "ABCDEF"[j];
  }

  lemma RoleChallengesNew(questions: seq<string>, prefix: string)
    requires prefix != "" && forall q :: q in questions ==> q == "" || q[0] != prefix[0]
    ensures AddNew(questions, Prefixed(prefix, Challenges())) == questions + Prefixed(prefix, Challenges())
    ensures forall q :: q in Prefixed(prefix, Challenges()) ==> q != "" && q[0] == prefix[0]
  {
    hide Challenges, AddNew;
    var more := Prefixed(prefix, Challenges());
    forall i, j | 0 <= i < j < |more| ensures more[i] != more[j] {
      ChallengesDiffer(prefix, i, j);
    }
    AllNew(questions, more);
  }

  predicate FullReport(report: Report, role: Role) {
    && report.challenges == Challenges() && report.status == StComplete
    && report.artifact == match role
                          case PO => ArtPo(Bound.EMPTY_PO)
                          case BA => ArtBa(Bound.EMPTY_BA)
                          case QA => ArtQa(Bound.EMPTY_QA)
                          case DEV => ArtDev(Bound.EMPTY_DEV)
  }

  predicate FullOutputs(o: Outputs) {
    FullReport(o.po, PO) && FullReport(o.ba, BA) && FullReport(o.qa, QA) && FullReport(o.dev, DEV)
  }

  lemma RoleQuestionsNew(questions: seq<string>, request: string, role: Role, report: Report)
    requires FullReport(report, role)
    requires forall q :: q in questions ==> q == "" || q[0] != RoleLabel(role)[0]
    ensures var own := Prefixed(RoleLabel(role) + " challenge: ", Challenges());
            && RoleQuestions(questions, Bound.PlanOn(request), role, report) == questions + own
            && forall q :: q in own ==> q != "" && q[0] == RoleLabel(role)[0]
  {
    hide Challenges, Prefixed;
    RoleChallengesNew(questions, RoleLabel(role) + " challenge: ");
  }

  lemma FullQuestions(request: string, o: Outputs)
    requires FullOutputs(o)
    ensures CandidateQuestions(Bound.PlanOn(request), o) == AllChallenges(" challenge: ")
  {
    hide Challenges, Prefixed, RoleQuestions, FullReport;
    var po := Prefixed("PO" + " challenge: ", Challenges());
    var ba := Prefixed("BA" + " challenge: ", Challenges());
    var qa := Prefixed("QA" + " challenge: ", Challenges());
    RoleQuestionsNew([], request, PO, o.po);
    assert [] + po == po;
    RoleQuestionsNew(po, request, BA, o.ba);
    RoleQuestionsNew(po + ba, request, QA, o.qa);
    RoleQuestionsNew(po + ba + qa, request, DEV, o.dev);
  }

  lemma FullChallenges(o: Outputs)
    requires FullOutputs(o)
    ensures CandidateChallenges(o) == AllChallenges(": ")
  {
    hide Challenges, Prefixed;
    assert "PO: " == "PO" + ": " && "BA: " == "BA" + ": " && "QA: " == "QA" + ": " && "DEV: " == "DEV" + ": ";
  }
}
