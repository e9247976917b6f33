/** The error codes the program throws: a constructor is the text of its code, with the prefix of its module cut short
    (`delivery_planning_run_` is Planning, `delivery_planning_run_store_` is PlanningStore, and so on). */
module Errors {

  datatype Error =
    // delivery_plan_
    | PlanExecutionLocked
    | PlanInvalid
    | PlanRevisionConflict
    | PlanTerminal
    | PlanTransitionConditionRequired
    | PlanTransitionInvalid
    // delivery_plan_store_
    | PlanStoreClockRegressed
    | PlanStoreCreateLifecycleInvalid
    | PlanStoreExpectedPlanRevisionConflict
    | PlanStoreOperationIdInvalid
    | PlanStoreOperationLimitReached
    | PlanStorePlanDuplicate
    | PlanStorePlanIdInvalid
    | PlanStorePlanInvalid
    | PlanStorePlanLimitReached
    | PlanStorePlanNotFound
    | PlanStorePlanRevisionConflict
    | PlanStorePlanTooLarge
    | PlanStoreRevisionConflict
    // delivery_planning_run_
    | PlanningApplyBindingConflict
    | PlanningApplyErrorInvalid
    | PlanningAttemptBindingMismatch
    | PlanningAttemptMissing
    | PlanningAttemptStateConflict
    | PlanningBaReportRequired
    | PlanningCancelConfirmationRequired
    | PlanningCandidateInvalid
    | PlanningCandidateNotApplyable
    | PlanningCandidateRoleBindingMismatch
    | PlanningCandidateTooLarge
    | PlanningCandidateUnchanged
    | PlanningClaimIdInvalid
    | PlanningCleanupErrorInvalid
    | PlanningCleanupNotRequired
    | PlanningCleanupRecoveryClaimConflict
    | PlanningCleanupRecoveryClaimInvalid
    | PlanningCleanupRecoveryNotExpected
    | PlanningCleanupRecoveryOutcomeConflict
    | PlanningCleanupRequired
    | PlanningCleanupStateConflict
    | PlanningClockRegressed
    | PlanningContinueNotAllowed
    | PlanningContinueRecoveryOutcomeInvalid
    | PlanningIdInvalid
    | PlanningInvalid
    | PlanningOffCourseReasonInvalid
    | PlanningPoReportRequired
    | PlanningReportNotExpected
    | PlanningReportOutputDigestMismatch
    | PlanningResourceWaitNotAllowed
    | PlanningRoleEnvelopeTooLong
    | PlanningRoleFailureReasonInvalid
    | PlanningRoleIneligible
    | PlanningRoleStateConflict
    | PlanningSourcePlanInvalid
    | PlanningSourcePlanTooLarge
    | PlanningSpawnLeaseBindDeadlineExpired
    | PlanningSpawnLeaseBindObservationInvalid
    | PlanningSpawnLeaseBindingMismatch
    | PlanningSpawnLeaseCleanupConfirmationRequired
    | PlanningSpawnLeaseCleanupStateConflict
    | PlanningSpawnLeaseDeadlineNotReached
    | PlanningSpawnLeaseErrorInvalid
    | PlanningSpawnLeaseStateConflict
    | PlanningSynthesisNotReady
    | PlanningTerminal
    | PlanningTooLarge
    | PlanningWorkerInvalid
    // delivery_planning_run_store_
    | PlanningStoreActiveOperationBudgetExceeded
    | PlanningStoreActiveRunLimitReached
    | PlanningStoreByteReservationUnavailable
    | PlanningStoreClockRegressed
    | PlanningStoreCurrentRunMismatch
    | PlanningStoreCurrentRunTooLarge
    | PlanningStoreHistoryIncomplete
    | PlanningStoreInvalid
    | PlanningStoreOperationChronologyInvalid
    | PlanningStoreOperationConflict
    | PlanningStoreOperationDuplicate
    | PlanningStoreOperationInvalid
    | PlanningStoreOperationLifecycleInvalid
    | PlanningStoreOperationLimitReached
    | PlanningStoreOperationReservationUnavailable
    | PlanningStoreOperationRevisionInvalid
    | PlanningStoreOperationRunInvalid
    | PlanningStoreOperationRunUnknown
    | PlanningStoreOperationTooLarge
    | PlanningStorePlanBindingDuplicate
    | PlanningStoreReservationUnavailable
    | PlanningStoreRevisionConflict
    | PlanningStoreRevisionInvalid
    | PlanningStoreRunDuplicate
    | PlanningStoreRunInvalid
    | PlanningStoreRunNotFound
    | PlanningStoreRunRevisionConflict
    | PlanningStoreRunTooLarge
    | PlanningStoreShapeInvalid
    | PlanningStoreTooLarge
    // delivery_run_
    | RunAbortConfirmationRequired
    | RunAbortOperatorEvidenceRequired
    | RunAbortReasonInvalid
    | RunAbortStateInvalid
    | RunEvidenceDuplicate
    | RunImplementationBaselineIdentityChanged
    | RunImplementationStateInvalid
    | RunImplementationUnchanged
    | RunInvalid
    | RunMissionBindingConflict
    | RunMissionIdInvalid
    | RunMissionLinkStateInvalid
    | RunMissionReconcileErrorInvalid
    | RunMissionReconcileStateInvalid
    | RunOffCourseReasonInvalid
    | RunOffCourseStateInvalid
    | RunTaskNotFound
    | RunVerificationBaselineChanged
    | RunVerificationCriteriaInvalid
    | RunVerificationDuplicate
    | RunVerificationNoteRequired
    | RunVerificationStateInvalid
    // delivery_run_store_
    | RunStoreClockRegressed
    | RunStoreOperationIdInvalid
    | RunStoreOperationLimitReached
    | RunStorePlanBindingDuplicate
    | RunStoreRevisionConflict
    | RunStoreRunDuplicate
    | RunStoreRunLimitReached
    | RunStoreRunNotFound
    | RunStoreRunRevisionConflict
    // store_
    | LoggedStoreInvalid
    | LoggedStoreOperationConflict
    // planning_role_report_
    | ReportBindingMismatch
    | ReportJsonDepthExceeded
    | ReportJsonDuplicateKey
    | ReportJsonInvalid
    | ReportPersistedSizeExceeded
    // prompt_schedule_
    | PromptCronInvalid
    | PromptHasNoRun
    // snapshot_event_
    | SnapshotEventKeyInvalid
    // zz
    | PatchKeyInvalid
    | SequenceMismatch
}
