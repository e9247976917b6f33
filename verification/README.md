# Delivery planning: a verified model

This project models the core of the delivery planning server and proves what its protocols and
algorithms promise. `dafny verify dfyconfig.toml` checks everything.

## What is modelled

**The Planning Run protocol.** Four roles (PO, BA, then QA and DEV together) are handed out one
attempt each: a spawn lease is claimed, bound to an observed pane, dispatched to a worker, reported
and cleaned up, with side paths for resource waits, provisional workers in doubt, cleanup recovery,
the application of the candidate, leaving the course and cancelling. `planning_run.dfy` holds the
record and its validator, `planning_steps.dfy` the 28 steps. A step is accepted only when its own
guard passes *and* the validator accepts the changed copy (`Perform`); since the program clones the
run for every step, the model works on values. The main results:

- `planning_length.dfy`, `planning_bound.dfy`: every accepted step uses up a potential that starts
  at 70, so a run makes at most 71 of the 77 operations the store reserves. Adding up what each role
  can do on its own overshoots 77; the proof uses that a role which leaves the plain cleanup path
  keeps the phase from advancing. `planning_paths.dfy`, `planning_acceptance.dfy`, `planning_light.dfy`
  and `planning_longest.dfy` build an execution that takes all 71 within the size limits, so the bound
  cannot be improved.
- `planning_history.dfy`, `planning_safety.dfy`: inputs are frozen once a role is claimed, QA and DEV
  do not depend on each other, each role gets one attempt and one submission, a submitted attempt
  runs the exact pane its lease bound in time, off course is left by cancelling only, and an applied
  run has the previewed plan revision and definition.
- `planning_calls.dfy`, `planning_effects.dfy`, `planning_tables.dfy`: exactly what each step has to find and to
  say, what it changes field by field, and what a valid run holds in each of its states, each written down apart
  from the steps and the validator and proved to be what they come to.
- `planning_candidate.dfy`: the candidate, and with it the applied plan, read off the source plan and the four
  reports.
- `planning_refusals.dfy`: exactly when a report is accepted and when an attempt can be ended without
  one, for the steps whose guard passes and whose result the validator may still refuse.
- `planning_liveness.dfy`: from every reachable run that has not ended, accepted steps reach the
  cancelled state, and no ended run leaves a worker behind.
- `json_bytes.dfy`, `json_document.dfy`, `planning_sizes.dfy`, `planning_growth.dfy`, `planning_limits.dfy`: how many bytes the
  stored JSON text of a run takes, what the steps that end it add, and from that exactly when the 256 KiB
  limit lets a run leave the course, be closed or be cancelled, and exactly when its closing steps, one after
  the other, get it cancelled. A run with enough bytes to spare can always be stopped.
- `planning_review.dfy`, `planning_wide.dfy`, `planning_stuck.dfy`: exactly when a run in review accepts no
  step any more, and an execution that gets there.

**The stores and the durable repository.** `planning_store.dfy`, `planning_store_validation.dfy` and
`planning_admission.dfy` model the Planning Run store with its operation log, byte arithmetic and
reservations: an admitted run is never refused for lack of slots or bytes. `durable_json.dfy` is the
atomic file replacement with its three outcomes, `repository.dfy` the repository object around it
(memory, disk, poison flag) with exactly-once effects over every history of calls, write outcomes
and restarts; `planning_repository.dfy` puts the two together. `logged_store.dfy` and
`logged_store_validation.dfy` are the simpler store that Delivery Plans (`delivery_plan_store.dfy`)
and Delivery Runs (`delivery_run_store.dfy`) share. `planning_decisions.dfy`, `logged_decisions.dfy`,
`delivery_plan_decisions.dfy` and `delivery_run_decisions.dfy` say exactly which requests each of the three stores
takes, and what it then holds.

**Delivery Plans and Delivery Runs.** `delivery_plan.dfy` has the readiness lint,
`delivery_plan_phases.dfy` definition updates, phase transitions and what an approval fixes, and
`delivery_plan_diagram.dfy` exactly which transitions and updates are accepted; `delivery_run.dfy` and
`delivery_frontier.dfy` have the delivery of a plan task by task, `delivery_verdicts.dfy` what a verified or failed
task was judged by, `delivery_run_steps.dfy`, `delivery_run_effects.dfy` and `delivery_tables.dfy` what each step has
to say, what it changes and what a valid run holds, and `delivery_longest.dfy` an execution as long as the frontier
allows.

**Algorithms with a simple specification.**

- `json_text.dfy`, `json_canonical.dfy`, `json_parser.dfy`, `json_round_trip.dfy`, `json_duplicates.dfy`,
  `json_strict_parser.dfy`: the canonical JSON printer against the strict parser; `json_grammar.dfy` and
  `json_conformance.dfy`: that parser against the grammar of sections 2 to 7 of RFC 8259, as syntax trees.
- `usage_tokens.dfy`, `usage_replay.dfy`, `usage_refinement.dfy`, `usage_incremental.dfy`,
  `usage_reader.dfy`, `usage_chain.dfy`: token arithmetic, incremental replay against rebuild, chunked
  line reading, and the reader following growing files against one rebuild.
- `calendar.dfy`, `prompt_schedule.dfy`, `cron_fields.dfy`: cron parsing and the bounded search (crontab in IEEE Std
  1003.1-2017, calendar as in section 21.4.1 of ECMA-262).
- `terminal_style.dfy`, `terminal_sgr.dfy`, `terminal_ansi.dfy`, `terminal_grammar.dfy`, `terminal_presentation.dfy`:
  ANSI parsing against the control functions of ECMA-48 (the rendition parameters of its section 8.3.117), and
  presentation slicing.
- `snapshot_stream.dfy`: snapshot patches, their delivery, and the browser that applies them.
- `observation_cache.dfy`: the asynchronous cache under every interleaving.

`wrappers.dfy`, `errors.dfy`, `code_units.dfy` and `sets.dfy` are shared helpers.

## Conventions

- A SHA-256 digest is represented by what it was computed from, so equal digests mean equal contents.
- Timestamps are integers. The clock, fresh ids, file system failures and numeric readings of text are
  parameters.
- A thrown error is `Err` with the program's error code, a value of `Error`; codes that only say which
  field of a malformed record is wrong are merged into one.
- Code that changes fields in place is a class (`Repository`, `Disk`, `StrictParser`, `UsageStore`,
  `AnsiParser`, `Connection`, `ObservationCache`); loops are methods; both are proved against
  functions about which the lemmas speak.

## Where the code differs from what one might expect

- A `complete` report clears `blocker`, and the validator refuses an empty blocker in a run that is
  not active. In a run that is not closed such a report is therefore accepted exactly when no trial
  synthesis fails and the run is active or off course, or when one fails and the other three reports
  are complete, off course as well: a failed trial with an incomplete peer is refused there too
  (`PlanningRefusals.CompleteReportAccepted`). A worker can lose its report this way in a run that does
  happen: QA reports complete while DEV waits for resources (`PlanningLongest.RefusedReport`).
- A provisional worker cannot be reported lost or crashed by the general failure steps: their guard
  passes and the validator refuses the result (`PlanningRefusals.ProvisionalNeverEnds`). They are
  accepted exactly while an adopted worker is dispatching or submitted
  (`PlanningRefusals.UnreportedAccepted`); only the lease steps apply to a provisional one.
- The validator's size limit also holds for the steps that end a run. A run in review whose stored text takes
  more than 256 KiB less three bytes, and less one when its revision number gets longer, accepts no step: it
  can neither be applied nor leave the course nor be cancelled, since each of these adds a reason or a claim
  (`PlanningReview.StuckInReview`, for years of four digits). Reports with long challenges, long pane names and
  long rollout paths lead there (`PlanningStuck.StuckRun`). A run of at most 234004 bytes can always be stopped
  (`PlanningLimits.SmallRunsStop`).
- A repository that finds no file keeps the empty store in memory even when writing the initial file
  fails; the model therefore reads a missing file as the empty store.
- An escape character at the very end of a terminal text counts as an unterminated string control, so
  the text is reported as unreliable.
- The uniqueness of plan bindings among Delivery Runs is kept by creation alone; the store validator
  does not look for it (`DeliveryRunStore.OneRunForEachPlan`).
- Two leap days can be 2921 days apart, within the 2928 days the cron search covers
  (`PromptSchedule.LongestWaitReached`).

## Model

| member | source | states |
|---|---|---|
| `PlanningBound.RunLength` | delivery-planning-run.js:1472-2544 | Any order of accepted steps gives `revision == 1 + steps`, and revision plus the potential left never exceeds 71; so a run makes at most 71 of the 77 operations the store reserves |
| `PlanningLongest.LongestRun` | delivery-planning-run.js:1472-2544 | The bound is attained: an execution of 70 accepted steps after creation exists, with every resource retry, cleanup recovery and receipt the limits allow, and ends cancelled at revision 71; no step of it exceeds a size limit |
| `PlanningBound.TerminalIsFinal` | delivery-planning-run.js:2516-2544 | A reachable applied or closed run accepts no further step |
| `PlanningBound.PlannablePlan` | delivery-planning-run.js:234-264 | Plans that may be planned exist, for every request text, so the statements about runs are about something |
| `PlanningBound.PerformUses` | delivery-planning-run.js:1400-1409 | One accepted step leaves a valid, reachable-shaped run with strictly less potential and the next revision, and the clock does not go back |
| `PlanningBound.CreatedPotential` | delivery-planning-run.js:1153-1194 | A new run is valid, has revision 1 and potential 70 |
| `PlanningBound.CreateAccepted` | delivery-planning-run.js:234-264 | A run is created exactly on a valid source plan in planning for a change or a build of standard depth, locally reversible, that may write the workspace and nothing else, of a captured baseline; whatever its size |
| `PlanningBound.AdvanceUses` | delivery-planning-run.js:2061-2084 | The last cleanup of a phase pays for everything the next phase may do |
| `PlanningBound.RoleProgressUses` | delivery-planning-run.js:1250-1267 | Progress of one role pays for any change of condition that does not revive the run, and for handing the role out |
| `PlanningBound.SpawnUses` | delivery-planning-run.js:1472-1494 | Claiming a role uses potential, also when it ends a resource wait |
| `PlanningBound.RetryUses` | delivery-planning-run.js:2168-2270 | A resource retry is paid for by its receipt |
| `PlanningBound.ContinueUses` | delivery-planning-run.js:2168-2270 | A cleanup continuation is paid for by its receipt, whether or not it changes the role |
| `PlanningBound.WaitUses` | delivery-planning-run.js:1960-1976 | Entering a resource wait uses potential |
| `PlanningBound.CancelUses` | delivery-planning-run.js:2500-2544 | Cancelling ends the potential and needs every worker accounted for |
| `PlanningBound.CompileUses` | delivery-planning-run.js:2353-2381 | Compiling, or failing to, uses potential |
| `PlanningLength.LocalProgress` | delivery-planning-run.js:1535-1753 | Every step on one role record keeps the reachable shapes and leaves that role strictly fewer steps, on its course or off it for good |
| `PlanningLength.RoleChange` | delivery-planning-run.js:1228-1233 | Progress of a role of the phase uses up what the phase has left |
| `PlanningLength.PotentialNonNegative` | delivery-planning-run.js:1095-1151 | A reachable run that has not ended has at least one unit of potential |
| `PlanningHistory.LocalKeeps` | delivery-planning-run.js:1535-2166 | Steps on a role never change its attempt, lease, pane, stop request, worker, report or input once they exist, and never lead back to dispatching |
| `PlanningHistory.MutatedKeeps` | delivery-planning-run.js:1472-2544 | The same for every step of the run, with the input of a new attempt recomputed from the plan and the upstream reports |
| `PlanningHistory.ReportKeeps` | delivery-planning-run.js:1885-1958 | Recording a report keeps the attempt and adds the one report |
| `PlanningHistory.SpawnKeeps` | delivery-planning-run.js:1416-1494 | Claiming adds one spawning attempt on the given input |
| `PlanningSafety.FrozenInput` | delivery-planning-run.js:1196-1248 | In every reachable state a claimed role stores exactly the input digest recomputed from the source plan and the upstream reports: PO works from the plan, BA from the complete report of PO as well, QA and DEV from those of PO and BA |
| `PlanningSafety.PeersIndependent` | delivery-planning-run.js:1196-1218 | Two runs of one origin with the same PO and BA reports give QA (and DEV) the same input, whatever the other peer reported |
| `PlanningSafety.RunSince` | delivery-planning-run.js:1797-2112 | Between any two states of a run: reports, inputs, attempts, leases and submissions stay, attempt states never go back, and off course stays until cancelled |
| `PlanningSafety.OneAttempt` | delivery-planning-run.js:1472-1494 | No role is handed out twice in a run |
| `PlanningSafety.OneSubmission` | delivery-planning-run.js:1848-1859 | No role is submitted twice in a run |
| `PlanningSafety.SubmittedWorkers` | delivery-planning-run.js:1535-1559 | In every reachable state a submitted attempt runs the exact pane its lease bound, no later than the deadline |
| `PlanningSafety.ScopeIsOwn` | delivery-planning-run.js:340-372 | Workers of different runs, plans, roles, attempts, inputs or launches never share a scope, a session or a lease |
| `PlanningSafety.OffCourseLeftByCancel` | delivery-planning-run.js:2516-2544 | Off course is left only by cancelling |
| `PlanningSafety.AppliedRun` | delivery-planning-run.js:2314-2449 | An applied run has the next plan revision and a definition that is the source plan with its four roles replaced by the artifacts of the four complete reports, and with every question asked, each once, as unresolved; the candidate was ready and all workers were cleaned up |
| `PlanningCandidates.CandidateDefinition` | delivery-planning-run.js:2272-2351 | A candidate previews the source plan with the artifacts of the four reports of the run as its roles, the questions of the plan, the roles, the artifacts and the labelled challenges without repeats and in order, and everything else unchanged; it differs from the plan |
| `PlanningCalls.GuardPassed` | delivery-planning-run.js:1472-2544 | In a valid run a step other than a report passes its guard exactly when it names the attempt, lease and claim that are there, in the state the work is in, with everything said that it has to say |
| `PlanningCalls.StepCalls` | delivery-planning-run.js:1400-1409 | An accepted step, a report included, found and said what it had to: a report is on the work that was asked for, by the attempt working on it; the run is stored once more, at the time of the step, which is not before the last one |
| `PlanningEffects.StepEffects` | delivery-planning-run.js:1400-2544 | An accepted step changes, field by field, exactly what is listed: the last attempt of its own role with lease, stop request and cleanup; phase, condition and blocker of the run; the application; receipts, candidate and the memory of a failed synthesis; no other role |
| `PlanningTables.ValidMeans` | delivery-planning-run.js:387-1151 | The validator accepts exactly the runs in which every lease, stop request, cleanup, attempt and role, the application, the receipts, the phase and the condition hold what their states call for, given state by state |
| `PlanningRefusals.CompleteReportAccepted` | delivery-planning-run.js:1885-1958 | In a run that is not closed a complete report that passes its guard is accepted if and only if: with a failed trial synthesis, the other three reports are complete; without one, the run is active or off course |
| `PlanningRefusals.CompleteReportInRun` | delivery-planning-run.js:1080-1093 | In a reachable run, closed or not, the same with only the report of the peer left to ask about |
| `PlanningRefusals.OtherReportAccepted` | delivery-planning-run.js:1885-1958 | A report with any other status is accepted exactly when it passes its guard, in every condition |
| `PlanningLongest.RefusedReport` | delivery-planning-run.js:1960-1976 | A reachable run in which the complete report of QA is accepted, until DEV starts waiting for resources: then the same report passes its guard and is refused |
| `PlanningRefusals.UnreportedAccepted` | delivery-planning-run.js:1978-2027 | An attempt is ended without a report exactly when a reason is given and its adopted worker is dispatching or submitted |
| `PlanningRefusals.UnreportedInRun` | delivery-planning-run.js:1978-2027 | The same exact condition in every reachable run, closed ones included |
| `PlanningRefusals.ProvisionalNeverEnds` | delivery-planning-run.js:723-778 | In any run, ending an attempt whose worker was never adopted is refused |
| `PlanningLiveness.CanAlwaysBeStopped` | delivery-planning-run.js:1632-2544 | From every reachable run that has not ended, accepted steps, at most as many as its potential, reach the cancelled state |
| `PlanningLiveness.ClosingAccepted` | delivery-planning-run.js:2500-2544 | The next closing step of a reachable run is accepted at any time not before the recorded ones |
| `PlanningLiveness.LeaveAccepted` | delivery-planning-run.js:2516-2544 | Leaving the course is accepted exactly with a reason, in a run that has neither ended nor left it already |
| `PlanningLiveness.CancelAccepted` | delivery-planning-run.js:2500-2544 | Cancelling is accepted exactly when confirmed, with a reason, in a run that has not ended and has no unresolved worker |
| `PlanningLiveness.RoleClosingCloses` | delivery-planning-run.js:1611-1753 | The closing step of an unresolved role is permitted and leaves a valid record with the same report |
| `PlanningLiveness.NoWorkerLeftBehind` | delivery-planning-run.js:2500-2544 | In every reachable closed or applied run each started worker has a closed lease or a completed cleanup |
| `PlanningLiveness.AbandonAccepted` | delivery-planning-run.js:2470-2498 | An application in doubt can always be abandoned off course |
| `PlanningGrowth.ClosingBytes` | delivery-planning-run.js:202-204 | The closing step changes the bytes of the stored run by exactly what is computed from the run and the time beforehand |
| `PlanningGrowth.ClosingAtMost` | delivery-planning-run.js:202-204 | That is at most 402 bytes, for every run and every time |
| `JsonDocuments.DocumentBytes` | delivery-planning-run.js:202-204 | The formulas all sizes are added up from give the bytes, in UTF-8, of the text of any document indented by two spaces, escapes included |
| `JsonDocuments.TimesTake` | delivery-planning-run.js:202-204 | A stored time takes 24 characters in the years 0 to 9999, and 27 in others |
| `PlanningLimits.CreateWithinAccepted` | delivery-planning-run.js:234-264 | With the size limits: a run is created exactly on a source plan that may be planned and takes at most 16 KiB, when the new run takes at most 256 KiB |
| `PlanningLimits.WithinReaches` | delivery-planning-run.js:1147-1149 | The size limits only take executions away, so all that holds of every execution holds of those within them; everything such an execution reaches fits |
| `PlanningLimits.LeaveWithin` | delivery-planning-run.js:1400-1409 | Within the limits leaving the course is accepted exactly when it is without them and the bytes of the run and what the step adds, both known before, come to at most 256 KiB |
| `PlanningLimits.CancelWithin` | delivery-planning-run.js:1400-1409 | The same for cancelling, for every reason and time |
| `PlanningLimits.ClosingWithinAccepted` | delivery-planning-run.js:1400-1409 | Within the limits the next closing step is accepted, at any time not before the recorded ones, exactly when the bytes of the run and what it adds come to at most 256 KiB |
| `PlanningLimits.CanBeStoppedWithin` | delivery-planning-run.js:2470-2544 | A reachable run with 402 bytes to spare for each unit of its potential is cancelled within the limits, in at most as many steps |
| `PlanningLimits.ClosedExactly` | delivery-planning-run.js:1400-1409 | The closing steps of a reachable run, all at one time not before the recorded ones, cancel it within the limits exactly when its bytes and what the steps add one after the other never come to more than 256 KiB; the run they end with is reached within the limits |
| `PlanningLimits.SmallRunsStop` | delivery-planning-run.js:2470-2544 | So every reachable run of at most 234004 bytes can be stopped |
| `PlanningReview.ReviewSteps` | delivery-planning-run.js:2383-2544 | In review, and before it is being applied, a run can only be applied, leave the course, or be cancelled |
| `PlanningReview.StuckInReview` | delivery-planning-run.js:1147-1149 | Such a run accepts no step whatever exactly when its bytes, three more, and one for a longer revision number come to more than 256 KiB |
| `PlanningStuck.StuckRun` | delivery-planning-run.js:1147-1149 | Such runs exist: one of exactly 262144 bytes is reached within all size limits, with a request text of permitted length, and then refuses every step, cancelling included |
| `PlanningAdmission.StepAdmitted` | delivery-planning-run-store.js:671-736 | A step the run accepts is always stored when its items fit their slots: never refused for operations or bytes, never rejected by the store validator |
| `PlanningAdmission.CreateAdmitted` | delivery-planning-run-store.js:306-330 | A creation otherwise in order is stored exactly when the whole reservation is available |
| `PlanningAdmission.ClaimsNeverGrow` | delivery-planning-run-store.js:231-252 | Operations plus reserved operations, and bytes plus reserved bytes, never grow as the run steps |
| `PlanningAdmission.CreateWithinCapacity` | delivery-planning-run-store.js:306-330 | Reserving before the run exists covers its first operation, separators and revision digits included |
| `PlanningAdmission.LogReaches` | delivery-planning-run-store.js:365-464 | Each run of a log of accepted steps was reached by exactly the operations logged for it |
| `PlanningAdmission.PerformFollows` | delivery-planning-run-store.js:383-461 | Every accepted step passes the log validator: same identity, leases, panes, stop requests and worker scopes |
| `PlanningAdmission.CommitHealthy` | delivery-planning-run-store.js:351-363 | Whatever is stored is valid again and logs exactly the call that caused it |
| `PlanningDecisions.StepStored` | delivery-planning-run-store.js:712-782 | A new operation on a stored run is stored if and only if it was asked of the store and the run at their present revisions, not before anything that is logged, and the run accepts the step; then the run is replaced and the operation logged, and nothing else |
| `PlanningDecisions.CreateStored` | delivery-planning-run-store.js:831-895 | A new run is stored if and only if it was asked for at the present revision of the store, not before what is logged, under a new id, on a plan it may be created on, with no run active and one slot of 320 KiB and 77 operations free |
| `PlanningDecisions.StepNotFound` | delivery-planning-run-store.js:753-760 | A step on a run the store does not have is never stored |
| `PlanningDecisions.KnownAnswered` | delivery-planning-run-store.js:339-349 | A known operation changes nothing: it is answered as the first time when the same is asked for, and refused otherwise |
| `PlanningDecisions.SameRequest` | delivery-planning-run-store.js:200-211 | Requests are the same exactly when they ask for the same, at the same revisions |
| `PlanningDecisions.ReceiptNamesCall` | delivery-planning-run.js:2168-2270 | The receipt of a continuation names the operation logged for it and the revisions it was asked at |
| `PlanningAdmission.HeadroomNonNegative` | delivery-planning-run-store.js:231-252 | Reserved operations and bytes are never negative while items fit their slots |
| `PlanningStoreValidation.ValidateStore` | delivery-planning-run-store.js:470-546 | The validating loops accept exactly the valid stores |
| `PlanningStoreValidation.CheckLog` | delivery-planning-run-store.js:509-524 | One pass over the log with a map of last snapshots decides log validity |
| `PlanningStoreValidation.CheckOperation` | delivery-planning-run-store.js:365-464 | An operation is accepted exactly when it may come at its place in the log |
| `PlanningStoreValidation.CheckCurrent` | delivery-planning-run-store.js:525-532 | Every current run is the last snapshot the log has of it |
| `PlanningStoreValidation.ActiveReservation` | delivery-planning-run-store.js:231-252 | Computes the reserved operations and bytes, or reports why none can be reserved |
| `PlanningStoreValidation.CheckRuns` | delivery-planning-run-store.js:489-497 | Runs are valid, fit their slots and have distinct ids |
| `PlanningStoreValidation.CheckBindings` | delivery-planning-run-store.js:498-506 | No two active runs are bound to one plan revision |
| `DurableJson.Disk.WriteAtomic` | durable-json.js:51-86 | The target holds the whole new value exactly when the rename happened and is untouched otherwise; an error is flagged committed exactly then |
| `Repositories.Repository.Persist` | delivery-planning-run-store.js:658-669 | Memory follows the disk after a write; a committed write that cannot be read back poisons the repository |
| `Repositories.Repository.EnsureInitialized` | delivery-planning-run-store.js:671-697 | Loads once, writing the empty store when there is no file |
| `Repositories.Repository.Call` | delivery-planning-run-store.js:699-782 | One serialised call does what the state function says, for every outcome of load, write and read-back |
| `Repositories.CallSound` | delivery-planning-run-store.js:637-669 | A call keeps memory equal to disk or poisons; it extends the log exactly when it reports success or an uncertain write |
| `Repositories.HistorySound` | delivery-planning-run-store.js:637-791 | The same over every history of calls, write outcomes and restarts |
| `Repositories.LogOnlyGrows` | delivery-planning-run-store.js:351-363 | The log only grows and what an operation id stands for never changes |
| `Repositories.ExactlyOnce` | delivery-planning-run-store.js:339-349 | A call that took effect is never applied again: a retry after any history leaves the log alone and repeats the first answer |
| `Repositories.RetryAnswered` | delivery-planning-run-store.js:339-349 | With a readable file and no poison a retry is answered |
| `PlanningRepository.StoreWellBehaved` | delivery-planning-run-store.js:339-363 | The run store answers known operations from its log and logs what it commits |
| `PlanningRepository.RepositorySafe` | delivery-planning-run-store.js:621-791 | After any history from an empty directory: what memory holds equals the disk and a poisoned repository holds nothing, current runs are the last snapshots, each reached by one logged operation per revision |
| `PlanningRepository.StepAppliedOnce` | delivery-planning-run-store.js:699-782 | Exactly-once for Planning Runs over every history and write outcome |
| `DeliveryPlanStore.StoredApproval` | delivery-plan-store.js:169-179 | Over every history of calls, write outcomes and restarts: a stored plan in approved through done was approved by a logged approve-plan request for exactly the revision and definition it named, still has that definition, and each milestone since was entered by a logged transition that warrants it: confirmation, baseline, workspace and task graph to execute, a captured result to verify, a passed QA to release, and complete-plan with a verified release where one is required to be done |
| `DeliveryPlanStore.TrailIsHistory` | delivery-plan-store.js:242-274 | The log of a plan is a created plan followed by what its updates and transitions made of it |
| `DeliveryPlanStore.AcceptedIsStored` | delivery-plan-store.js:514-645 | An accepted create, update or transition is stored exactly when plan and store fit their byte limits: the log validator never rejects it |
| `DeliveryPlanStore.ApprovedByTransition` | delivery-plan.js:674-746 | Only an approving transition of a ready plan at the revision it names leads to approved |
| `DeliveryPlanStore.PlanStoreWellMade` | delivery-plan-store.js:207-240 | What a request makes of the store is what it means for the last snapshot of its plan |
| `DeliveryRunStore.StoredRun` | delivery-run-store.js:199-252 | Over every history of calls, write outcomes and restarts: each stored run has a frontier and one logged operation for each of its at most 4n + 2 revisions |
| `DeliveryRunStore.OneRunForEachPlan` | delivery-run-store.js:551-557 | No two stored runs ever carry out the same plan definition; creation alone keeps this, the validator does not check it |
| `DeliveryRunStore.AcceptedIsStored` | delivery-run-store.js:436-475 | An accepted request is stored exactly when run and store fit their byte limits: the log validator never rejects it |
| `DeliveryRunStore.PerformFollows` | delivery-run-store.js:219-249 | Every accepted step keeps plan binding, start, tasks and binding keys, and aborts exactly by aborting, at the time of the operation |
| `DeliveryRunStore.TrailIsExecution` | delivery-run-store.js:199-252 | The log of a run is an execution of accepted steps |
| `LoggedStores.StoreWellBehaved` | delivery-run-store.js:176-197 | A store whose requests mean what they make is one the repository can keep |
| `LoggedStores.AppliedOnce` | delivery-run-store.js:452-476 | An operation that took effect is never applied again, whatever happened in between |
| `LoggedStores.StoredWhenItFits` | delivery-run-store.js:185-197 | A new operation that may come next in the log is stored exactly when its item and the store fit |
| `LoggedStores.TrailIsLawful` | delivery-run-store.js:199-252 | Each snapshot of an item is what its operation made of the one before, and the last one is current |
| `LoggedDecisions.KnownAnswered` | delivery-run-store.js:176-183 | A known operation is answered as the first time when the same is asked for, and refused otherwise |
| `DeliveryPlanDecisions.ChangeStored` | delivery-plan-store.js:575-682 | A new update or transition of a stored plan is stored if and only if it was asked of store and plan at their present revisions, not before anything that is logged, the plan accepts it, and there is room; then the plan is replaced and the operation logged, and nothing else |
| `DeliveryPlanDecisions.PlanNotFound` | delivery-plan-store.js:575-682 | A change of a plan the store does not have is never stored |
| `DeliveryPlanDecisions.CreateStored` | delivery-plan-store.js:519-570 | A new plan is stored if and only if it was asked for at the present revision of the store, not before what is logged, under a new id, in a phase without approval, and there is room |
| `DeliveryRunDecisions.ChangeStored` | delivery-run-store.js:435-478 | A new step of a stored run is stored if and only if it was asked of store and run at their present revisions, not before anything that is logged, the run accepts it, and there is room |
| `DeliveryRunDecisions.RunNotFound` | delivery-run-store.js:435-478 | A step of a run the store does not have is never stored |
| `DeliveryRunDecisions.CreateStored` | delivery-run-store.js:515-562 | A new run is stored if and only if it was asked for at the present revision of the store, not before what is logged, under a new id and for a plan definition no stored run has, and there is room |
| `LoggedStoreValidation.ValidateStore` | delivery-run-store.js:258-296 | The validating loops accept exactly the valid stores |
| `LoggedStoreValidation.CheckLog` | delivery-run-store.js:274-286 | One pass over the log with a map of last snapshots decides its validity |
| `LoggedStoreValidation.CheckItems` | delivery-run-store.js:267-273 | Items are valid and have different ids |
| `LoggedStoreValidation.CheckCurrent` | delivery-run-store.js:287-292 | Every current item is the last snapshot of the log, and none is left over |
| `DeliveryPlans.LintReadiness` | delivery-plan.js:431-495 | The linting loops report ready exactly for ready plans, serious findings exactly for incomplete ones, and a complete trace for each covered requirement |
| `DeliveryPlans.LintRequirements` | delivery-plan.js:462-482 | Requirements are traced to the steps and criteria that name them |
| `DeliveryPlans.StepsForFinds` | delivery-plan.js:462-482 | A requirement has step ids exactly when some step names it |
| `DeliveryPlanPhases.ApprovalFixesDefinition` | delivery-plan.js:586-746 | Over any history a plan from approved to done has the definition of its latest approval, and entered executing, verifying, ready to release and done since by transitions with the conditions each demands: done implies that a transition said QA passed |
| `DeliveryPlanDiagram.TransitionAccepted` | delivery-plan.js:674-746 | A plan of some history accepts exactly these transitions: an edge of the diagram, a running delivery leaving only by its own progress or a replan after an abort, with what its target asks for, at the revision it expects |
| `DeliveryPlanDiagram.TransitionResult` | delivery-plan.js:674-746 | It counts one revision and leaves the definition alone; only an approval gives approval fields, and only replanning takes them away |
| `DeliveryPlanDiagram.UpdateAccepted` | delivery-plan.js:624-668 | Exactly which updates are accepted and what they make of the plan: part by part the patched definition, back in planning, no approval and clear gates when it changed |
| `DeliveryPlanDiagram.ValidMeans` | delivery-plan.js:299-425 | The validator accepts exactly the plans whose ids name one thing each and refer to what is there, with an approval that is complete or absent, and what their phase calls for, given phase by phase |
| `DeliveryPlanDiagram.NothingOpen` | delivery-plan.js:431-495 | A ready plan leaves nothing open, in the plan or in any of its roles |
| `DeliveryPlanPhases.HistoryKeepsLifecycle` | delivery-plan.js:608-746 | Over any history: no approval outside the approval phases (cancelled apart), and clear gates while executing |
| `DeliveryPlanPhases.MilestonesGoOn` | delivery-plan.js:674-746 | One more operation inside the approval phases keeps approval and definition and passes at most one milestone |
| `DeliveryPlanPhases.SnapshotStages` | delivery-plan.js:674-746 | The states since the latest approval pass through the phases in order with that definition |
| `DeliveryPlanPhases.UpdateKeepsLifecycle` | delivery-plan.js:608-668 | A definition update withdraws any approval it touches |
| `DeliveryPlanPhases.MoveKeepsLifecycle` | delivery-plan.js:674-746 | A transition keeps the lifecycle |
| `DeliveryPlanPhases.ApprovalPhaseSteps` | delivery-plan.js:674-746 | Inside the approval phases only transitions happen and none changes the definition |
| `DeliveryPlanPhases.CreatedLifecycle` | delivery-plan-store.js:169-179 | A stored plan starts in a phase without approval |
| `DeliveryPlanPhases.UpdateCounts` | delivery-plan.js:646-668 | An update counts one revision, or none when nothing changed |
| `DeliveryPlanPhases.MoveCounts` | delivery-plan.js:674-746 | A transition counts one revision |
| `DeliveryFrontier.RunFrontier` | delivery-run.js:1105-1353 | Every reachable run of n tasks has a frontier (before it verified and applied, after it untouched or aborted unstarted), and at most 4n + 2 revisions |
| `DeliveryLongest.LongestRun` | delivery-run.js:1105-1327 | The bound is attained whatever the tasks: each is put in doubt, linked, captured and verified, the last verification fails, and the run is aborted at revision 4n + 2 |
| `DeliveryFrontier.LevelNeverFalls` | delivery-run.js:643-647 | The delivery level of a run never falls |
| `DeliveryFrontier.VerifiedChain` | delivery-run.js:924-956 | In a verified run each task found exactly what its predecessor left, changed it and was verified on it |
| `DeliveryVerdicts.RunJudged` | delivery-run.js:1195-1280 | In every reachable run a task is verified only by a record in which each of its acceptance ids has a criterion that passed, and failed only by one in which some criterion did not |
| `DeliveryVerdicts.VerifiedCriteria` | delivery-run.js:1195-1280 | In a verified run every acceptance id the run was created with has a passed criterion, in a record on exactly the workspace the task captured |
| `DeliveryRunSteps.StepCalls` | delivery-run.js:1105-1353 | A step of a reachable run is accepted only on the task at its frontier, with everything said that the state of the work asks for, under new evidence ids, one criterion for each acceptance id; an abort only with the confirmation and evidence of the operator; it adds its evidence and its record and changes nothing the run is bound to |
| `DeliveryRunEffects.StepEffects` | delivery-run.js:1066-1353 | An accepted step changes, field by field, the task at the frontier with its outbox entry, and condition, blocker and record of the run; a passed verification releases the next task, an abort ends all that are not verified; the level is what the tasks show |
| `DeliveryTables.ValidMeans` | delivery-run.js:649-1010 | The validator accepts exactly the runs in which every task, outbox entry and record, the abort, the level and the condition hold what their states call for, given state by state |
| `DeliveryFrontier.LinkAdvances` | delivery-run.js:1105-1129 | A mission is only ever linked at the frontier, and uses a step |
| `DeliveryFrontier.ReconcileAdvances` | delivery-run.js:1131-1151 | Only the frontier can need reconciliation |
| `DeliveryFrontier.CaptureAdvances` | delivery-run.js:1153-1181 | Only the frontier is captured, with a workspace other than the expected one |
| `DeliveryFrontier.PassedAdvances` | delivery-run.js:1183-1280 | A verification in which every criterion passed moves the frontier by one and hands on the captured digest |
| `DeliveryFrontier.FailedAdvances` | delivery-run.js:1183-1280 | A verification in which some criterion did not pass blocks the run at its frontier |
| `DeliveryFrontier.AbortAdvances` | delivery-run.js:1282-1327 | Aborting keeps verified tasks and cancels everything unstarted |
| `DeliveryFrontier.OffCourseAdvances` | delivery-run.js:1329-1353 | Only the frontier can leave the course: the validator refuses a later task |
| `DeliveryRuns.CreateAccepted` | delivery-run.js:1012-1058 | Exactly which inputs a run is created from, the plan revision of at least 1 included; repeated acceptance ids are dropped, and identifiers only have to be given |
| `DeliveryFrontier.EndedIsFinal` | delivery-run.js:1282-1353 | A verified or aborted run accepts no further step |
| `JsonRoundTrip.CanonicalRoundTrip` | planning-role-report.js:314-427 | Strictly parsing canonical text gives the value back exactly when it is within the depth limit, and the depth error otherwise |
| `JsonRoundTrip.CanonicalInjective` | delivery-plan.js:502-528 | Canonical text tells any two values apart, up to the order of object members |
| `JsonConformance.StrictConforms` | planning-role-report.js:314-427 | The strict parser gives a value for a text if and only if the text spells that value in the grammar of sections 2 to 7 of RFC 8259, with white space, escapes and both cases of hexadecimal digits, within the depth limit and without repeated keys |
| `JsonConformance.GrammarRead` | planning-role-report.js:314-427 | Every text of the grammar is read as what it means |
| `JsonConformance.ReadIsGrammar` | planning-role-report.js:314-427 | Nothing else is read |
| `JsonConformance.NumeralIsNumber` | planning-role-report.js:348-355 | A numeral is exactly what section 6 calls a number |
| `JsonRoundTrip.StringRoundTrip` | planning-role-report.js:325-346 | Printed strings, surrogates and escapes included, are read back |
| `JsonRoundTrip.NumeralStops` | planning-role-report.js:348-355 | The greedy numeral reader stops exactly at the end of a printed numeral |
| `JsonRoundTrip.MembersRoundTrip` | planning-role-report.js:373-400 | Printed members are read back as the object |
| `JsonRoundTrip.ItemsRoundTrip` | planning-role-report.js:402-422 | Printed items are read back as the array |
| `JsonText.SortedUnique` | delivery-plan.js:516-519 | Sorting puts any enumeration of the keys in one and the same order |
| `JsonCanonical.StringWritten` | delivery-plan.js:502-506 | Strings are written unit by unit: two characters for what has a short escape, six for other controls and half a surrogate pair, everything else as it is, surrogate pairs included |
| `JsonCanonical.KeyOrder` | delivery-plan.js:516-519 | Keys are ordered by the first unit in which they differ, and a key comes before those it begins |
| `JsonDuplicates.StrictIsPermissiveAndDistinct` | planning-role-report.js:373-400 | The strict parser accepts exactly the texts a permissive one reads without a repeated key at any level, and refuses the others as duplicates |
| `JsonStrictParser.StrictJsonParse` | planning-role-report.js:314-427 | The parser with one shared offset computes the specification, which `JsonConformance.StrictConforms` ties to the grammar |
| `JsonStrictParser.StrictParser.Object` | planning-role-report.js:373-400 | The object loop agrees with the specification and leaves the specified rest |
| `JsonStrictParser.StrictParser.Array` | planning-role-report.js:402-422 | The array loop agrees with the specification |
| `JsonStrictParser.StrictParser.String` | planning-role-report.js:325-346 | The scan with its escape flag agrees with the specification |
| `JsonStrictParser.StrictParser.Value` | planning-role-report.js:357-371 | Dispatch on the first character agrees with the specification, depth limit included |
| `UsageIncremental.IncrementalIsRebuild` | codex-telemetry.js:1100-1179 | Any split into batches, interleaving and redelivery gives the same cursors, day and agent totals, ticket tokens, counts and sources as one rebuild |
| `UsageIncremental.RedeliveryIgnored` | codex-telemetry.js:1106-1108 | A batch the store has passed changes nothing when delivered again |
| `UsageIncremental.BatchTracked` | codex-telemetry.js:1100-1137 | A batch in its turn moves the cursor to its end, any other is ignored; the store always holds exactly the events before its cursors |
| `UsageIncremental.TrackedDetermined` | codex-telemetry.js:1100-1137 | A store is fixed by how far each source was read |
| `UsageRefinement.EventTotal` | codex-telemetry.js:1080-1098 | One event adds its growth to every total it hits and to no other |
| `UsageRefinement.EventCounts` | codex-telemetry.js:1080-1098 | One event counts once for the one ticket whose window claims it |
| `UsageRefinement.GrownSplit` | codex-telemetry.js:1110-1127 | Splitting a run of events changes no total |
| `UsageReplay.UsageStore.ReplayBatchIntoStore` | codex-telemetry.js:1100-1137 | The replay loop, updating days, tickets and cursors in place, computes the specified store |
| `UsageReplay.UsageStore.AddUsageEvent` | codex-telemetry.js:1080-1098 | Updates day, agent and ticket in place as specified |
| `UsageReplay.UsageStore.RefreshTicketRows` | codex-telemetry.js:1063-1067 | Every window gets a row; existing counts stay |
| `UsageReplay.OneWindow` | codex-telemetry.js:1069-1078 | A window is picked for an event if and only if it claims its session at its time and no other window does |
| `UsageTokens.AddAssociates` | codex-telemetry.js:87-92 | Saturating addition does not depend on bracketing |
| `UsageTokens.GrowthAddsBack` | codex-telemetry.js:94-100 | Growth of monotone counters added back gives the current counters |
| `UsageTokens.GrowthOrNothing` | codex-telemetry.js:94-100 | Counters that all grew give their differences, any counter that shrank gives nothing at all |
| `UsageTokens.MapSumAdd` | codex-telemetry.js:87-92 | Adding to one source adds to the sum over sources |
| `UsageReader.ReadCodexUsageEventBatch` | codex-telemetry.js:773-825 | The chunked reader gives the same events and next offset for every division into chunks |
| `UsageReader.ReadChunk` | codex-telemetry.js:789-813 | One chunk finishes the lines whose newline it holds, however many chunks they began before |
| `UsageReader.NextOffsetIsLineStart` | codex-telemetry.js:814-825 | The next offset is one past the last newline |
| `UsageReader.ResumeIsOneRead` | codex-telemetry.js:773-825 | Reading and then reading on from the next offset after the file grew gives the events of one read |
| `UsageChain.ReadingCuts` | codex-telemetry.js:773-825 | A reading of a file of which only a part was written by then gives exactly the events of the finished file between its two offsets, both line starts |
| `UsageChain.ChainDeliverable` | codex-telemetry.js:773-825 | Readings of growing files, each from the beginning or from where an earlier one ended, repeated and interleaved at will, are batches as incremental replay takes for granted |
| `UsageChain.FollowingIsRebuild` | codex-telemetry.js:1100-1179 | Following growing files from the cursors of the store, at any times and in any order, gives the store of one rebuild that reads every file once |
| `UsageChain.ShrunkenRewinds` | codex-telemetry.js:814-825 | After a file shrank, reading it only takes the cursor of its source back to the end: no event is counted |
| `PromptSchedule.NextPromptCronAt` | prompt-schedule.js:85-96 | Malformed schedules and those that match no minute at all are refused; for every other one the result is the least matching minute strictly after the argument, and the search never fails |
| `PromptSchedule.FirstMatch` | prompt-schedule.js:91-95 | The bounded search loop finds the least matching minute from its start |
| `PromptSchedule.FieldsFixCron` | prompt-schedule.js:39-57 | The five fields fix the schedule, so the result does not depend on how it was parsed |
| `PromptSchedule.SearchSucceeds` | prompt-schedule.js:1-3 | The search of 8 * 366 days always meets a match of an accepted schedule |
| `PromptSchedule.LongestWaitReached` | prompt-schedule.js:2-3 | Around a century that is no leap year the wait for 29 February really is 2921 days |
| `PromptSchedule.ImpossibleNeverMatches` | prompt-schedule.js:78-83 | A schedule refused for having no run matches no minute at all |
| `PromptSchedule.ParsePromptCron` | prompt-schedule.js:39-57 | Accepts exactly five well-formed fields that can match, and returns the values they stand for |
| `PromptSchedule.ParseCronField` | prompt-schedule.js:5-37 | The loops accept exactly well-formed fields and collect exactly the numbers their segments step onto |
| `CronFields.FieldMeans` | prompt-schedule.js:5-37 | A field is accepted exactly when each of its segments is proper, and selects exactly the numbers they stand for: all for a star, first to last for a range, one for a number, with a step every so many from the first on, and 7 as another 0 for Sundays |
| `PromptSchedule.StepValues` | prompt-schedule.js:34-34 | The stepping loop collects exactly the numbers of a segment |
| `PromptSchedule.DayRule` | prompt-schedule.js:59-67 | With both day fields restricted either may match, otherwise both must |
| `Calendar.DateRoundTrip` | prompt-schedule.js:59-67 | A date is read back from its day number |
| `Calendar.DayRoundTrip` | prompt-schedule.js:59-67 | Every day number is that of its date |
| `Calendar.WeekDaysGoRound` | prompt-schedule.js:59-67 | The first of January 1970 is a Thursday, and the week days go round from there |
| `TerminalAnsi.StyledIsExact` | terminal-ansi.js:143-239 | A styled result expands to exactly the style each unit was written in; its runs are in order, apart, not default and maximally merged |
| `TerminalAnsi.ParsedTextIsPlain` | terminal-ansi.js:143-239 | The text holds no control character but newline and tab, and parsing it again returns it unchanged |
| `TerminalAnsi.ParseTerminalAnsi` | terminal-ansi.js:143-239 | The parser computes the unit-by-unit reading, with the status its reliability and run count call for |
| `TerminalAnsi.AnsiParser.Parse` | terminal-ansi.js:163-226 | The main loop, updating style, output and runs in place, agrees with the unit-by-unit interpreter |
| `TerminalAnsi.AnsiParser.ApplySgr` | terminal-ansi.js:84-119 | SGR parameters change the style in place as specified, up to the first malformed one |
| `TerminalAnsi.AnsiParser.Flush` | terminal-ansi.js:151-161 | Flushing leaves exactly the runs of what was written so far |
| `TerminalAnsi.ControlSequenceEnd` | terminal-ansi.js:121-127 | Finds the first final byte: the result is one, no unit before it is, and without a result none is |
| `TerminalAnsi.StringControlEnd` | terminal-ansi.js:129-136 | Finds the last unit of the first string terminator: none starts before it, and without a result none starts at all |
| `TerminalAnsi.ControlEndIsFirst` | terminal-ansi.js:121-127 | What the interpreter takes as the end of a control sequence is the first final byte |
| `TerminalAnsi.StringEndIsFirst` | terminal-ansi.js:129-136 | What the interpreter takes as the end of a string control is the first terminator |
| `TerminalGrammar.TextConforms` | terminal-ansi.js:121-226 | A text is read as this if and only if it is spelled by pieces that mean it: characters, ignored controls, escapes, control sequences and control strings in their short and long forms, each shown character in the style the `m` sequences before it gave; what is cut off at the end makes the styles unreliable |
| `TerminalGrammar.LineEndings` | terminal-ansi.js:143-150 | A carriage return ends a line, alone or with the line feed after it; nothing else changes |
| `TerminalAnsi.FlushIsRuns` | terminal-ansi.js:151-161 | Flushing a stretch in one style is flushing its units one by one, merging included |
| `TerminalStyle.SgrCanonical` | terminal-ansi.js:19-119 | Every colour the parser produces is lower-case `#rrggbb` or none |
| `TerminalSgr.IndexedShows` | terminal-ansi.js:19-33 | Indexed colours by red, green and blue: sixteen of their own, a cube of six intensities each, and twenty-four greys; nothing outside 0 to 255 |
| `TerminalSgr.PlainEffects` | terminal-ansi.js:84-119 | What an ordinary parameter does to each attribute and each colour (section 8.3.117 of ECMA-48) |
| `TerminalSgr.OrdinaryParameter` | terminal-ansi.js:84-119 | An ordinary parameter takes effect and the others go on from there |
| `TerminalSgr.ExtendedParameters` | terminal-ansi.js:67-82 | 38 and 48 with 5 take one index, with 2 three bytes, and set the foreground or the background to that colour |
| `TerminalSgr.MalformedParameters` | terminal-ansi.js:67-82 | Anything else after 38 or 48 leaves the style and stops the reading |
| `TerminalSgr.NumbersRead` | terminal-ansi.js:84-90 | Each part counts as its number, an empty one as 0; one that is no number spoils them all |
| `TerminalPresentation.ParsedRunsAccepted` | public/terminal-presentation.js:22-44 | The presentation accepts the parser's runs unchanged |
| `TerminalPresentation.NormalizedTerminalStyleRuns` | public/terminal-presentation.js:22-44 | Normalises acceptable runs, or returns none when one is not |
| `TerminalPresentation.StylesMean` | public/terminal-presentation.js:1-20 | A normalised style keeps its switches and its colours, six hexadecimal digits in either case, in lower case; what is no colour counts as none |
| `TerminalPresentation.TerminalPresentationSlices` | public/terminal-presentation.js:46-90 | The slices concatenate to the content, none is empty, each lies inside one style run or none and one match or none, for all runs and offsets |
| `TerminalPresentation.CutAt` | public/terminal-presentation.js:71-89 | The two-index loop assigns every slice its style and match |
| `TerminalPresentation.AcceptedMatches` | public/terminal-presentation.js:50-63 | Keeps each offset that starts inside the text after the match before it |
| `TerminalPresentation.MatchesApart` | public/terminal-presentation.js:50-63 | Accepted matches are in order, apart and numbered |
| `SnapshotStream.StreamAgrees` | public/ui-state.js:91-123 | Over any arrivals, dropped, repeated, late or reconnecting within a round of sequence numbers, a browser holding a sequence has exactly the server fields there |
| `SnapshotStream.ArrivalAgrees` | public/ui-state.js:91-123 | A patch whose base the browser does not show is refused, never applied |
| `SnapshotStream.PatchAgrees` | snapshot-events.js:36-45 | Applying the patch between two states to the first gives the second |
| `SnapshotStream.FieldsKept` | snapshot-events.js:4-15 | The fields of a snapshot are exactly its keys with a value; one of three forbidden keys refuses it |
| `SnapshotStream.PublishKeeps` | snapshot-events.js:17-55 | Publishing keeps the history well formed and browsers right |
| `SnapshotStream.BuildSnapshotEventUpdate` | snapshot-events.js:23-55 | Builds the next state and broadcasts the shorter of snapshot and patch |
| `SnapshotStream.ApplySnapshotPatch` | public/ui-state.js:91-123 | The loops of deletions and assignments apply the patch, or refuse it |
| `SnapshotStream.Connection.WriteSnapshotEvent` | snapshot-events.js:57-77 | A live stream gets each sequence at most once in a row and nothing is queued behind an undrained frame |
| `ObservationCaches.HistorySound` | observation-cache.js:5-40 | Over every interleaving the cache keeps at most its number of entries, one for a key, each value produced by a load for that key |
| `ObservationCaches.HitIsRecent` | observation-cache.js:15-19 | A cached hit returns what a load for that key settled with less than a lifetime ago |
| `ObservationCaches.FreshIsHit` | observation-cache.js:11-19 | A fresh value is a hit unless a reload is asked for: nothing is loaded, and it becomes the youngest entry |
| `ObservationCaches.OtherwiseLoads` | observation-cache.js:20-26 | Without a fresh value and a pending load a new load starts, as the youngest entry |
| `ObservationCaches.SettledIsFresh` | observation-cache.js:27-35 | What a current load settles with is fresh for exactly the lifetime |
| `ObservationCaches.OnlyOldestGoes` | observation-cache.js:7-9 | A get drops no entry of another key but the oldest, and that only when the cache is full |
| `ObservationCaches.LateSettlingIgnored` | observation-cache.js:27-39 | A load whose entry was evicted, deleted or replaced changes nothing when it settles |
| `ObservationCaches.GoneForGood` | observation-cache.js:21-39 | Such an entry never comes back |
| `ObservationCaches.ObservationCache.BeginGet` | observation-cache.js:11-26 | The synchronous part of a get: join, hit or start a load and trim |
| `ObservationCaches.ObservationCache.Settle` | observation-cache.js:27-39 | The completion of a load, counted only when its entry is still the current one |
| `ObservationCaches.ObservationCache.Trim` | observation-cache.js:7-9 | Drops the oldest entries down to the limit |

## Left out

- Identifiers, prompts, labels and other texts: patterns, lengths, trimming and lower-casing; a text is only distinguished from the empty one where the code requires one.
- Steps of Planning and Delivery Runs: the program assigns fields of a fresh clone inside a callback; the model maps the old run to the new one, so assignment order inside a step is not captured. The field checks of their validators are predicates and the collection of candidate questions is a recursive function.
- Exact key checks of request objects and stored records: the datatypes have exactly the fields.
- The private-text scan of role reports, and their evidence and findings lists.
- Workspace baseline and input digest of a Planning Run: opaque records that no step changes; they are not fields of the model.
- Role envelopes, prompts and dashboard texts.
- PlanningBound.CreateAccepted: does not ask about the size of the source plan and the new run; `PlanningLimits.CreateWithinAccepted` does.
- PlanningLiveness.CanAlwaysBeStopped: speaks of runs without the size limit; `PlanningLimits.CanBeStoppedWithin` has it, and `PlanningStuck.StuckRun` shows that it does make a difference.
- PlanningLiveness.ClosingAccepted: speaks of runs without the size limit; `PlanningLimits.ClosingWithinAccepted` has it.
- PlanningLiveness.LeaveAccepted: speaks of runs without the size limit; `PlanningLimits.LeaveWithin` has it.
- PlanningLiveness.CancelAccepted: speaks of runs without the size limit; `PlanningLimits.CancelWithin` has it.
- PlanningLiveness.AbandonAccepted: speaks of runs without the size limit; `PlanningLimits.ClosingWithinAccepted` covers this step with it.
- PlanningRefusals.CompleteReportAccepted: speaks of runs without the size limit, which `PlanningLimits.PerformWithin` adds to any step.
- PlanningRefusals.CompleteReportInRun: speaks of runs without the size limit, which `PlanningLimits.PerformWithin` adds to any step.
- PlanningRefusals.OtherReportAccepted: speaks of runs without the size limit, which `PlanningLimits.PerformWithin` adds to any step.
- PlanningRefusals.UnreportedAccepted: speaks of runs without the size limit, which `PlanningLimits.PerformWithin` adds to any step.
- PlanningRefusals.UnreportedInRun: speaks of runs without the size limit, which `PlanningLimits.PerformWithin` adds to any step.
- Byte limits: the bytes of source plans, reports and runs are computed, but for the readiness findings of a candidate (`Measures`); in the store, in the logs and for role envelopes whether something fits is a parameter (`Sizes`, `envelopeFits`).
- PlanningReview.StuckInReview: speaks of runs last changed in the years 0 to 9999, where a later time never takes fewer bytes.
- PlanningStuck.StuckRun: asks that the readiness findings of its candidate take less than 7391 bytes; its thirteen errors and one warning (delivery-plan.js:431-495) come to 2389.
- The role envelope that creating a run builds is not part of `CreateRun`: it holds the compact text of a source plan of at most 16 KiB, the workspace of at most 4096 characters and fixed texts of less than 3000, so it cannot exceed its 64 Ki characters.
- PlanningAdmission.StepAdmitted: assumes that the items of the step fit their slots, as the store's own slot check demands; the JSON length of one item is a parameter, all separators and revision digits are computed.
- Plan patches: a patch replaces whole parts of the definition; merging single fields of a part and normalising texts are not modelled.
- DeliveryPlans.LintReadiness: readiness warnings are not modelled, only errors and traceability.
- DeliveryRuns.CreateAccepted: the patterns of identifiers and paths are not modelled; an identifier is only distinguished from the empty text.
- Verification ids derived from the operation id in the Delivery Run store: the call carries the id.
- Order of the checks inside one call where it only decides which of several error codes is reported.
- Read-only calls of the repositories (`list`, `get`, summaries), which return copies of the modelled state.
- Files: opening, permissions, ownership, symbolic links, the directory; only the outcomes of writing and reading back are kept.
- DurableJson.Disk.WriteAtomic: an unsynced rename that a crash of the machine undoes is not modelled; a restart finds the file the process left.
- JsonRoundTrip.CanonicalRoundTrip: numbers stay numerals; `Number()` with its rounding and the finite check are not modelled.
- JsonRoundTrip.CanonicalInjective: numbers are told apart as numerals, not as JavaScript numbers, `-0` included.
- JsonStrictParser.StrictJsonParse: a numeral is kept as it is written, without `Number()` and the finite check; the framing markers around a role report are not modelled.
- PromptSchedule.ParsePromptCron: splitting the text into fields and segments and its length limit are not modelled; minutes are unbounded integers without the `Date` range.
- PromptSchedule.ParseCronField: the text of a field comes cut into segments, and the JavaScript reading of a step text is an input.
- UsageIncremental.IncrementalIsRebuild: assumes fixed ticket windows and no pruning, and leaves out replay counters and the legacy sample path.
- UsageReplay.UsageStore.ReplayBatchIntoStore: batches have well-formed source ids, sessions and a start offset; malformed ones are not modelled.
- UsageReplay.UsageStore.AddUsageEvent: first and last event times of a ticket and the order of its sources are not fields of the model.
- UsageReplay.UsageStore.RefreshTicketRows: the window data copied into each row are not fields of the model.
- UsageChain.FollowingIsRebuild: files only grow by appended bytes; what a file holds that shrank and grew again is not followed, only the reading that finds it shrunken (`UsageChain.ShrunkenRewinds`).
- TerminalAnsi.ParseTerminalAnsi: the numeric reading of a parameter text is a parameter.
- SnapshotStream.StreamAgrees: arrivals are less than a full round of sequence numbers from what the browser shows; after a wrap an old patch with the same sequence number cannot be told apart.
- JSON text lengths of snapshots and patches are a parameter.
- Promises and the clock of the observation cache: each synchronous part of a call is one move, in any order.
- Evidence of a Delivery Run beyond id, kind, verdict and time; scopes and paths of its tasks.
- Everything outside these protocols: authentication, host metrics, tmux and systemd, recovery of agents, the rest of the user interface.
