/** Following a Planning Run step by step: role records on their way, and copies the validator accepts. */
module PlanningPaths {
  import opened Wrappers
  import opened PlanningRuns
  import opened PlanningSteps
  import Bound = PlanningBound
  import Liveness = PlanningLiveness

  // Texts the program takes, those without a fixed form as long as it takes them.
  const ATTEMPT := "planning-attempt-00000001"
  const PANE := Pane(0, Bound.Wide('\U{540d}', 512), "%1", 1, Bound.Wide('\U{540d}', 512))
  const ROLLOUT := "00000000-0000-0000-" + "0000-000000000000"
  const SOURCE := Bound.Wide('0', 24)
  const ROLLOUT_PATH := "/" + Bound.Wide('\U{9053}', 4095)
  const LOST := "The worker was lost."

  // ---------------------------------------------------------------- a role on its way

  function BindingFor(b: RunBinding, role: Role, d: InputDigest, at: int): LeaseBinding {
    ExpectedLeaseBinding(b, role, ATTEMPT, d, Bound.HEX, Bound.HEX, at + 1)
  }

  function ClaimedLease(b: RunBinding, role: Role, d: InputDigest, at: int): SpawnLease {
    SpawnLease(BindingFor(b, role, d, at), at, LeaseClaimed, NO_OBSERVATION, None, "")
  }

  function BoundLease(b: RunBinding, role: Role, d: InputDigest, at: int): SpawnLease {
    ClaimedLease(b, role, d, at).(state := LeaseBound, observed := Observed(ExactPane, Some(BoundPane(PANE, at)), Some(at)))
  }

  function DispatchFor(b: RunBinding, role: Role, d: InputDigest, at: int): Dispatch {
    var l := BindingFor(b, role, d, at);
    Dispatch(Worker(l.session, PANE, 1, ROLLOUT, SOURCE, l.launchDigest, l.scopeUnit, l.scopeDigest), ROLLOUT_PATH, 0, Bound.HEX)
  }

  function OneAttempt(state: RoleState, d: InputDigest, a: Attempt): RoleRecord {
    RoleRecord(state, Some(d), [a], None, None)
  }

  function SpawnedAttempt(b: RunBinding, role: Role, d: InputDigest, at: int): Attempt {
    Attempt(ATTEMPT, role, Spawning, d, ClaimedLease(b, role, d, at), None, at, None, None, None, NoOutcome, "", "", None)
  }

  function BoundAttempt(b: RunBinding, role: Role, d: InputDigest, at: int): Attempt {
    SpawnedAttempt(b, role, d, at).(lease := BoundLease(b, role, d, at))
  }

  function DispatchedAttempt(b: RunBinding, role: Role, d: InputDigest, at: int): Attempt {
    BoundAttempt(b, role, d, at).(state := Dispatching, lease := BoundLease(b, role, d, at).(state := LeaseAdopted),
                                  dispatch := Some(DispatchFor(b, role, d, at)), dispatchClaimedAt := Some(at))
  }

  function SubmittedAttempt(b: RunBinding, role: Role, d: InputDigest, at: int): Attempt {
    DispatchedAttempt(b, role, d, at).(state := Submitted, submittedAt := Some(at))
  }

  lemma OneAttemptValid(state: RoleState, role: Role, b: RunBinding, d: InputDigest, a: Attempt)
    requires state in {SpawnClaimed, DispatchClaimed, Dispatched} && a.state == AttemptStateFor(state) && a.inputDigest == d
    requires ValidAttemptBinding(a, role, b) && ValidAttemptLifecycle(a)
    ensures ValidRole(OneAttempt(state, d, a), role, b)
  {
    hide ValidAttemptBinding, ValidAttemptLifecycle;
  }

  lemma NextAttempt(state: RoleState, next: RoleState, d: InputDigest, a: Attempt, a': Attempt)
    ensures WithAttempt(OneAttempt(state, d, a).(state := next), a') == OneAttempt(next, d, a')
  {
    assert [a][0 := a'] == [a'];
  }

  lemma AttemptsBuilt(b: RunBinding, role: Role, d: InputDigest, at: int)
    ensures ValidAttemptBinding(SpawnedAttempt(b, role, d, at), role, b) && ValidAttemptLifecycle(SpawnedAttempt(b, role, d, at))
    ensures ValidAttemptBinding(BoundAttempt(b, role, d, at), role, b) && ValidAttemptLifecycle(BoundAttempt(b, role, d, at))
  {
  }

  lemma AdoptedBuilt(b: RunBinding, role: Role, d: InputDigest, at: int)
    ensures ValidAttemptBinding(DispatchedAttempt(b, role, d, at), role, b) && ValidAttemptLifecycle(DispatchedAttempt(b, role, d, at))
  {
    hide ValidCleanup;
  }

  lemma SubmittedBuilt(b: RunBinding, role: Role, d: InputDigest, at: int)
    ensures ValidAttemptBinding(SubmittedAttempt(b, role, d, at), role, b) && ValidAttemptLifecycle(SubmittedAttempt(b, role, d, at))
  {
    hide ValidCleanup;
  }

  lemma SpawnedValid(role: Role, b: RunBinding, d: InputDigest, at: int)
    ensures SpawnRole(EMPTY_ROLE, role, b, d, ATTEMPT, BindingFor(b, role, d, at), at)
            == Ok(OneAttempt(SpawnClaimed, d, SpawnedAttempt(b, role, d, at)))
    ensures ValidRole(OneAttempt(SpawnClaimed, d, SpawnedAttempt(b, role, d, at)), role, b)
  {
    hide ValidRole, ValidAttemptBinding, ValidAttemptLifecycle;
    AttemptsBuilt(b, role, d, at);
    OneAttemptValid(SpawnClaimed, role, b, d, SpawnedAttempt(b, role, d, at));
    assert EMPTY_ROLE.attempts + [SpawnedAttempt(b, role, d, at)] == [SpawnedAttempt(b, role, d, at)];
  }

  lemma BoundValid(role: Role, b: RunBinding, d: InputDigest, at: int)
    ensures BindRole(OneAttempt(SpawnClaimed, d, SpawnedAttempt(b, role, d, at)), ATTEMPT,
                     Liveness.RefOf(ClaimedLease(b, role, d, at)), PANE, at)
            == Ok(OneAttempt(SpawnClaimed, d, BoundAttempt(b, role, d, at)))
    ensures ValidRole(OneAttempt(SpawnClaimed, d, BoundAttempt(b, role, d, at)), role, b)
  {
    hide ValidRole, ValidAttemptBinding, ValidAttemptLifecycle;
    AttemptsBuilt(b, role, d, at);
    OneAttemptValid(SpawnClaimed, role, b, d, BoundAttempt(b, role, d, at));
    NextAttempt(SpawnClaimed, SpawnClaimed, d, SpawnedAttempt(b, role, d, at), BoundAttempt(b, role, d, at));
  }

  lemma DispatchedValid(role: Role, b: RunBinding, d: InputDigest, at: int)
    ensures DispatchRole(OneAttempt(SpawnClaimed, d, BoundAttempt(b, role, d, at)), ATTEMPT,
                         BindingFor(b, role, d, at).leaseId, DispatchFor(b, role, d, at), at)
            == Ok(OneAttempt(DispatchClaimed, d, DispatchedAttempt(b, role, d, at)))
    ensures ValidRole(OneAttempt(DispatchClaimed, d, DispatchedAttempt(b, role, d, at)), role, b)
  {
    hide ValidRole, ValidAttemptBinding, ValidAttemptLifecycle;
    AdoptedBuilt(b, role, d, at);
    OneAttemptValid(DispatchClaimed, role, b, d, DispatchedAttempt(b, role, d, at));
    NextAttempt(SpawnClaimed, DispatchClaimed, d, BoundAttempt(b, role, d, at), DispatchedAttempt(b, role, d, at));
  }

  lemma SubmittedValid(role: Role, b: RunBinding, d: InputDigest, at: int)
    ensures SubmitRole(OneAttempt(DispatchClaimed, d, DispatchedAttempt(b, role, d, at)), ATTEMPT, at)
            == Ok(OneAttempt(Dispatched, d, SubmittedAttempt(b, role, d, at)))
    ensures ValidRole(OneAttempt(Dispatched, d, SubmittedAttempt(b, role, d, at)), role, b)
  {
    hide ValidRole, ValidAttemptBinding, ValidAttemptLifecycle;
    SubmittedBuilt(b, role, d, at);
    OneAttemptValid(Dispatched, role, b, d, SubmittedAttempt(b, role, d, at));
    NextAttempt(DispatchClaimed, Dispatched, d, DispatchedAttempt(b, role, d, at), SubmittedAttempt(b, role, d, at));
  }

  // ---------------------------------------------------------------- its cleanup, put in doubt up to twice

  function ClaimId(n: int): string {
    if n == 0 then "first-claim" else if n == 1 then "second-claim" else "third-claim"
  }

  function History(n: int, at: int): seq<Recovery> {
    if n == 0 then [] else if n == 1 then [Recovery(ExactWorker, ClaimId(1), at)]
    else [Recovery(ExactWorker, ClaimId(1), at), Recovery(ExactWorker, ClaimId(2), at)]
  }

  /** Claimed for the first time, or again after n recoveries of the exact worker. */
  function ClaimedCleanup(n: int, at: int): Cleanup {
    Cleanup(CleanupClaimed, ClaimId(n), Some(at), None, None, "", if n == 0 then NoRecovery else ExactWorker,
            if n == 0 then None else Some(at), n, History(n, at))
  }

  function SentCleanup(n: int, at: int): Cleanup {
    ClaimedCleanup(n, at).(state := CleanupSent, sentAt := Some(at))
  }

  function DoubtfulCleanup(n: int, at: int): Cleanup {
    SentCleanup(n, at).(state := CleanupReconcile, error := LOST)
  }

  lemma HistoryValid(n: nat, at: int)
    requires n <= 2
    ensures |History(n, at)| == n && ValidHistory(History(n, at)) && RecoveredMatches(ClaimedCleanup(n, at))
    ensures ClaimId(n) != ""
  {
    DistinctClaims();
    NonEmptyClaim(n);
    NonEmptyClaim(1);
    NonEmptyClaim(2);
    hide ClaimId;
  }

  lemma CleanupsValid(n: nat, at: int)
    requires n <= 2
    ensures ValidCleanup(PENDING_CLEANUP) && ValidCleanup(ClaimedCleanup(n, at)) && ValidCleanup(SentCleanup(n, at))
    ensures ValidCleanup(DoubtfulCleanup(n, at)) && ValidCleanup(SentCleanup(0, at).(state := CleanupComplete, completedAt := Some(at)))
  {
    HistoryValid(n, at);
    HistoryValid(0, at);
    hide ClaimId, History, ValidHistory;
    assert ValidHistory([]) by { NoHistory(); }
  }

  lemma NoHistory()
    ensures ValidHistory([])
  {
  }

  lemma RecoveredAgain(n: nat, at: int)
    requires n <= 1
    ensures Recovered(DoubtfulCleanup(n, at), ExactWorker, ClaimId(n + 1), at) == ClaimedCleanup(n + 1, at)
    ensures DoubtfulCleanup(n, at).claimId != ClaimId(n + 1)
    ensures forall i :: 0 <= i < n ==> History(n, at)[i].claimId != ClaimId(n + 1)
  {
    assert ClaimId(0) != ClaimId(1) && ClaimId(1) != ClaimId(2) && ClaimId(0) != ClaimId(2) by { DistinctClaims(); }
    assert History(0, at) + [Recovery(ExactWorker, ClaimId(1), at)] == History(1, at);
    assert History(1, at) + [Recovery(ExactWorker, ClaimId(2), at)] == History(2, at);
  }

  lemma DistinctClaims()
    ensures ClaimId(0) != ClaimId(1) && ClaimId(1) != ClaimId(2) && ClaimId(0) != ClaimId(2)
  {
    assert |ClaimId(0)| == 11 && |ClaimId(1)| == 12 && |ClaimId(2)| == 11 && ClaimId(0)[0] == 'f' && ClaimId(2)[0] == 't';
  }

  /** A valid record whose one attempt ended, with this cleanup. */
  predicate Ended(rec: RoleRecord, role: Role, b: RunBinding, c: Cleanup) {
    && ValidRole(rec, role, b) && |rec.attempts| == 1 && rec.attempts[0].id == ATTEMPT && rec.attempts[0].cleanup == Some(c)
    && rec.attempts[0].state in {Finished, Crashed, AttemptReconcile}
  }

  /** Role and attempt wait for the operator to say what became of the worker. */
  predicate InDoubt(rec: RoleRecord) {
    rec.state == RoleReconcile && rec.attempts != [] && rec.attempts[0].state == AttemptReconcile
  }

  /** Changing the cleanup of an ended attempt. */
  lemma CleanupMoves(rec: RoleRecord, role: Role, b: RunBinding, c: Cleanup, c': Cleanup)
    requires Ended(rec, role, b, c) && ValidCleanup(c')
    ensures Ended(Recleaned(rec, c'), role, b, c') && Recleaned(rec, c').state == rec.state
  {
    hide ValidRole, ValidCleanup;
    Liveness.CleanupCloses(rec, rec.attempts[0], role, b, c, c');
  }

  lemma ClaimMoves(rec: RoleRecord, role: Role, b: RunBinding, at: int)
    requires Ended(rec, role, b, PENDING_CLEANUP)
    ensures ClaimCleanupRole(rec, ATTEMPT, ClaimId(0), at) == Ok(Recleaned(rec, ClaimedCleanup(0, at)))
    ensures Ended(Recleaned(rec, ClaimedCleanup(0, at)), role, b, ClaimedCleanup(0, at))
  {
    hide ValidRole, ValidCleanup, WithCleanup;
    CleanupsValid(0, at);
    CleanupMoves(rec, role, b, PENDING_CLEANUP, ClaimedCleanup(0, at));
  }

  lemma SendMoves(rec: RoleRecord, role: Role, b: RunBinding, n: nat, at: int)
    requires n <= 2 && Ended(rec, role, b, ClaimedCleanup(n, at))
    ensures SendCleanupRole(rec, ATTEMPT, at) == Ok(Recleaned(rec, SentCleanup(n, at)))
    ensures Ended(Recleaned(rec, SentCleanup(n, at)), role, b, SentCleanup(n, at))
  {
    hide ValidRole, ValidCleanup, WithCleanup;
    CleanupsValid(n, at);
    CleanupMoves(rec, role, b, ClaimedCleanup(n, at), SentCleanup(n, at));
  }

  function CompletedCleanup(at: int): Cleanup {
    SentCleanup(0, at).(state := CleanupComplete, completedAt := Some(at))
  }

  lemma CompleteMoves(rec: RoleRecord, role: Role, b: RunBinding, at: int)
    requires Ended(rec, role, b, SentCleanup(0, at))
    ensures CompleteCleanupRole(rec, ATTEMPT, at) == Ok(Recleaned(rec, CompletedCleanup(at)))
    ensures Ended(Recleaned(rec, CompletedCleanup(at)), role, b, CompletedCleanup(at))
  {
    hide ValidRole, ValidCleanup, WithCleanup;
    CleanupsValid(0, at);
    CleanupMoves(rec, role, b, SentCleanup(0, at), CompletedCleanup(at));
  }

  lemma RecoverMoves(rec: RoleRecord, role: Role, b: RunBinding, n: nat, at: int)
    requires n <= 1 && Ended(rec, role, b, DoubtfulCleanup(n, at)) && InDoubt(rec)
    ensures RecoverRole(rec, ATTEMPT, ExactWorker, ClaimId(n + 1), at) == Ok(Recleaned(rec, ClaimedCleanup(n + 1, at)))
    ensures Ended(Recleaned(rec, ClaimedCleanup(n + 1, at)), role, b, ClaimedCleanup(n + 1, at))
  {
    hide ValidRole, ValidCleanup, WithCleanup, ClaimId, Recovered;
    CleanupsValid(n + 1, at);
    RecoveredAgain(n, at);
    CleanupMoves(rec, role, b, DoubtfulCleanup(n, at), ClaimedCleanup(n + 1, at));
    assert ClaimId(n + 1) != "" by { NonEmptyClaim(n + 1); }
  }

  lemma NonEmptyClaim(n: nat)
    ensures ClaimId(n) != ""
  {
    assert |ClaimId(n)| > 0;
  }

  function GoneCleanup(at: int): Cleanup {
    Recovered(DoubtfulCleanup(2, at), WorkerAbsent, "", at)
  }

  lemma GoneMoves(rec: RoleRecord, role: Role, b: RunBinding, at: int)
    requires Ended(rec, role, b, DoubtfulCleanup(2, at)) && InDoubt(rec)
    ensures RecoverRole(rec, ATTEMPT, WorkerAbsent, "", at) == Ok(Recleaned(rec, GoneCleanup(at)))
    ensures Ended(Recleaned(rec, GoneCleanup(at)), role, b, GoneCleanup(at)) && GoneCleanup(at).state == CleanupComplete
  {
    hide ValidRole, ValidCleanup, WithCleanup;
    CleanupsValid(2, at);
    Liveness.RecoveredValid(DoubtfulCleanup(2, at), at);
    CleanupMoves(rec, role, b, DoubtfulCleanup(2, at), GoneCleanup(at));
  }

  /** Putting the cleanup in doubt takes role and attempt along. */
  function DoubtfulRole(rec: RoleRecord, n: int, at: int): RoleRecord {
    if rec.attempts == [] then rec else
    WithCleanup(rec.(state := RoleReconcile),
                rec.attempts[|rec.attempts| - 1].(state := AttemptReconcile, outcome := NoOutcome, error := LOST,
                                                  summary := DOUBTED),
                DoubtfulCleanup(n, at))
  }

  lemma DoubtMoves(rec: RoleRecord, role: Role, b: RunBinding, n: nat, at: int)
    requires n <= 2 && Ended(rec, role, b, SentCleanup(n, at))
    ensures ReconcileCleanupRole(rec, ATTEMPT, LOST) == Ok(DoubtfulRole(rec, n, at))
    ensures Ended(DoubtfulRole(rec, n, at), role, b, DoubtfulCleanup(n, at))
    ensures InDoubt(DoubtfulRole(rec, n, at))
  {
    hide ValidRole, ValidCleanup;
    CleanupsValid(n, at);
    DoubtValid(rec, role, b, n, at);
  }

  lemma DoubtValid(rec: RoleRecord, role: Role, b: RunBinding, n: nat, at: int)
    requires Ended(rec, role, b, SentCleanup(n, at)) && ValidCleanup(DoubtfulCleanup(n, at))
    ensures ValidRole(DoubtfulRole(rec, n, at), role, b)
  {
    hide ValidLease, ValidCleanup, ReportFor, ExpectedLeaseBinding, WorkerMatchesLease, DoubtfulCleanup, SentCleanup;
    assert rec.attempts[0] in rec.attempts;
  }
}
