/** Errors as the vServer SDK returns them. */
module SdkErrors {
  import opened Wrappers

  // The codes the driver tells apart; EcOther is any further one.
  datatype ErrorCode =
    | EcInternalServerError
    | EcServiceMaintenance
    | EcVServerVolumeNotFound
    | EcVServerVolumeInProcess
    | EcVServerVolumeAlreadyAttachedThisServer
    | EcVServerVolumeAvailable
    | EcVServerServerNotFound
    | EcVServerVolumeIsMigrating
    | EcVServerVolumeUnchanged
    | EcVServerVolumeMigrateBeingProcess
    | EcVServerVolumeMigrateProcessingConfirm
    | EcVServerVolumeMigrateBeingMigrating
    | EcVServerVolumeMigrateBeingFinish
    | EcVServerVolumeMigrateInSameZone
    | EcOther(name: string)

  // inner is what GetError() returns: an error built without WithErrors has none, and a
  // caller that returns GetError() then returns success. status is the raw HTTP status, on
  // the few errors that carry one.
  datatype SdkError = SdkError(code: ErrorCode, inner: Option<string>, status: Option<int>)
}
