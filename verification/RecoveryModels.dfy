/**
 Frozen records and pure transitions of the production-recovery protocol:
 the durable main record, the optional cleanup child, the phase tables and the
 guarded phase advance (backend/app/deploy/production_recovery_models.py).
 */
module RecoveryModels {
  import opened Wrappers

  datatype TriState = Yes | No | Unknown

  /**
   The forty-three phases, numbered in the order the protocol lists them: the forward
   road from PLANNED to COMPLETED, then the one-way rollback branch up to ROLLED_BACK.
   */
  type Phase = n: nat | n <= 42

  const PLANNED: Phase := 0
  const PROTECTION_BACKUP_STARTED: Phase := 1
  const PROTECTION_BACKUP_COMPLETED: Phase := 2
  const PROTECTION_BACKUP_SKIPPED: Phase := 3
  const REPLACEMENT_CREATE_STARTED: Phase := 4
  const REPLACEMENT_CREATED: Phase := 5
  const IDENTITY_COMMIT_STARTED: Phase := 6
  const IDENTITY_COMMITTED: Phase := 7
  const RESTORE_STARTED: Phase := 8
  const RESTORE_COMPLETED: Phase := 9
  const VERIFICATION_STARTED: Phase := 10
  const VERIFICATION_COMPLETED: Phase := 11
  const SERVICES_STOP_STARTED: Phase := 12
  const SERVICES_STOPPED: Phase := 13
  const CONFIG_PROTECTION_STARTED: Phase := 14
  const CONFIG_PROTECTION_COMPLETED: Phase := 15
  const ENV_SWITCH_STARTED: Phase := 16
  const ENV_SWITCHED: Phase := 17
  const WATCHLIST_SWITCH_STARTED: Phase := 18
  const WATCHLIST_SWITCHED: Phase := 19
  const CONFIG_SWITCHED: Phase := 20
  const APPLICATION_START_STARTED: Phase := 21
  const APPLICATION_STARTED: Phase := 22
  const READINESS_STARTED: Phase := 23
  const READINESS_PASSED: Phase := 24
  const MONITOR_START_AUTHORIZED: Phase := 25
  const MONITOR_START_STARTED: Phase := 26
  const MONITOR_STARTED: Phase := 27
  const MONITOR_WRITE_OBSERVED: Phase := 28
  const COMPLETED: Phase := 29
  const ROLLBACK_STARTED: Phase := 30
  const ROLLBACK_MONITOR_STOPPED: Phase := 31
  const ROLLBACK_APPLICATION_STOP_STARTED: Phase := 32
  const ROLLBACK_APPLICATION_STOPPED: Phase := 33
  const ROLLBACK_ENV_STARTED: Phase := 34
  const ROLLBACK_ENV_COMPLETED: Phase := 35
  const ROLLBACK_WATCHLIST_STARTED: Phase := 36
  const ROLLBACK_WATCHLIST_COMPLETED: Phase := 37
  const ROLLBACK_APPLICATION_START_STARTED: Phase := 38
  const ROLLBACK_APPLICATION_STARTED: Phase := 39
  const ROLLBACK_READINESS_STARTED: Phase := 40
  const ROLLBACK_READINESS_PASSED: Phase := 41
  const ROLLED_BACK: Phase := 42

  /** The table of ordinary transitions; the entry into rollback is separate. */
  predicate CanFollow(from: Phase, to: Phase) {
    if from == PLANNED then to == PROTECTION_BACKUP_STARTED || to == PROTECTION_BACKUP_SKIPPED
    else if from == PROTECTION_BACKUP_COMPLETED then to == REPLACEMENT_CREATE_STARTED
    else if from == ENV_SWITCHED then to == WATCHLIST_SWITCH_STARTED || to == CONFIG_SWITCHED
    else if from == MONITOR_STARTED then to == MONITOR_WRITE_OBSERVED || to == COMPLETED
    else if from == ROLLBACK_ENV_COMPLETED then to == ROLLBACK_WATCHLIST_STARTED || to == ROLLBACK_APPLICATION_START_STARTED
    else if from == COMPLETED || from == ROLLED_BACK then false
    else to == from + 1
  }

  /** Phases from which a rollback may begin. */
  predicate RollbackEntry(p: Phase) {
    ENV_SWITCH_STARTED <= p <= MONITOR_START_AUTHORIZED
  }

  datatype LockIdentity = LockIdentity(device: nat, inode: nat)

  /** Identities fixed when the incident is planned; no update may change any of them. */
  datatype FixedIdentities = FixedIdentities(
    originalDatabaseRevision: string,
    originalDatabaseComponent: string,
    originalDatabaseIdentity: string,
    originalDatabaseOwner: string,
    replacementDatabase: string,
    replacementToken: string,
    expectedOwner: string,
    selectedManifest: string,
    selectedDump: string,
    selectedWatchlist: string,
    originalEnv: string,
    stagedEnv: string,
    originalWatchlist: string)

  datatype Resources = Resources(
    fixed: FixedIdentities,
    protectedEnv: Option<string>,
    stagedWatchlist: Option<string>,
    protectedWatchlist: Option<string>)

  datatype Authorizations = Authorizations(protectionSkip: bool, watchlistSwitch: bool, monitorStart: bool)

  datatype ProtectionStatus = ProtectionPending | ProtectionDone | ProtectionSkipped

  datatype ProtectionIdentity = ProtectionIdentity(
    backupId: Option<string>,
    manifest: Option<string>,
    dump: Option<string>,
    watchlist: Option<string>)

  datatype Verification = NotStarted | Passed | Failed

  datatype ErrorCode =
    | PhaseInvalid | VerificationNotPassed | ServicesNotStopped | SkipNotAuthorized
    | ProtectionBackupInvalid | ReplacementNotActivated | WatchlistNotSwitched
    | MonitorStartNotAuthorized | MonitorBaselineMissing | CompletionInvalid
    | FactUpdateInvalid | CleanupIdentityInvalid | CleanupNotCompleted | CleanupPhaseInvalid
    | DropNotObserved | CleanupFactUpdateInvalid | CleanupForbidden
    | RecordInvalid | RecordStale
    | ManualReconciliationRequired | VerificationFailed | ReadinessFailed
    | ServiceStopFailed | RestoreFailed | TargetInvalid | RollbackFailed

  datatype Record = Record(
    incidentId: string,
    lockIdentity: LockIdentity,
    phase: Phase,
    resources: Resources,
    auth: Authorizations,
    protection: ProtectionIdentity,
    protectionStatus: ProtectionStatus,
    lastError: Option<ErrorCode>,
    retryable: bool,
    verification: Verification,
    verificationError: Option<ErrorCode>,
    monitorStopped: TriState,
    leaseFree: TriState,
    applicationStopped: TriState,
    connectionsDrained: TriState,
    cleanupId: Option<string>,
    cleanupRequested: bool,
    cleanupCompleted: bool,
    watchlistAuthorized: bool,
    watchlistWasSwitched: bool,
    replacementActivated: bool,
    firstWrite: TriState,
    firstWriteAt: Option<int>,
    generation: Option<string>,
    baseline: Option<string>,
    manual: bool)

  /** The cross-field validator every stored main record must satisfy. */
  predicate ValidRecord(r: Record) {
    && (r.cleanupCompleted ==> r.cleanupRequested)
    && (r.cleanupRequested ==> r.cleanupId.Some?)
    && (r.replacementActivated ==> r.phase != PLANNED)
    && r.watchlistAuthorized == r.auth.watchlistSwitch
    && (r.protectionStatus == ProtectionDone ==> AllFrozen(r.protection))
    && (r.protectionStatus == ProtectionSkipped ==> NoneFrozen(r.protection))
  }

  predicate AllFrozen(p: ProtectionIdentity) {
    p.backupId.Some? && p.manifest.Some? && p.dump.Some? && p.watchlist.Some?
  }

  predicate NoneFrozen(p: ProtectionIdentity) {
    p.backupId.None? && p.manifest.None? && p.dump.None? && p.watchlist.None?
  }

  /** The guarded phase transition, guard by guard in the order they are raised. */
  function AdvanceRecord(r: Record, target: Phase): Result<Record, ErrorCode> {
    if !(if target == ROLLBACK_STARTED then RollbackEntry(r.phase) else CanFollow(r.phase, target)) then
      Err(PhaseInvalid)
    else if target == VERIFICATION_COMPLETED && r.verification != Passed then
      Err(VerificationNotPassed)
    else if target == SERVICES_STOPPED
            && !(r.monitorStopped == Yes && r.leaseFree == Yes && r.applicationStopped == Yes && r.connectionsDrained == Yes) then
      Err(ServicesNotStopped)
    else if target == PROTECTION_BACKUP_SKIPPED && (!r.auth.protectionSkip || r.protectionStatus != ProtectionSkipped) then
      Err(SkipNotAuthorized)
    else if target == PROTECTION_BACKUP_COMPLETED && (r.protectionStatus != ProtectionDone || r.protection.backupId.None?) then
      Err(ProtectionBackupInvalid)
    else if target == ENV_SWITCHED && !r.replacementActivated then
      Err(ReplacementNotActivated)
    else if target == WATCHLIST_SWITCHED && !r.watchlistWasSwitched then
      Err(WatchlistNotSwitched)
    else if target == MONITOR_START_AUTHORIZED && !r.auth.monitorStart then
      Err(MonitorStartNotAuthorized)
    else if target == MONITOR_START_STARTED && (r.generation.None? || r.baseline.None?) then
      Err(MonitorBaselineMissing)
    else if r.phase == ENV_SWITCHED && target != (if r.watchlistAuthorized then WATCHLIST_SWITCH_STARTED else CONFIG_SWITCHED) then
      Err(PhaseInvalid)
    else if r.phase == ROLLBACK_ENV_COMPLETED
            && target != (if r.watchlistWasSwitched then ROLLBACK_WATCHLIST_STARTED else ROLLBACK_APPLICATION_START_STARTED) then
      Err(PhaseInvalid)
    else if target == COMPLETED && (r.firstWrite == Unknown || r.manual) then
      Err(CompletionInvalid)
    else if !ValidRecord(r.(phase := target)) then
      Err(RecordInvalid)
    else
      Ok(r.(phase := target))
  }

  datatype CleanupPhase = CleanupPlanned | CleanupStarted | CleanupCompleted

  datatype Child = Child(
    cleanupId: string,
    incidentId: string,
    replacementDatabase: string,
    replacementToken: string,
    expectedOwner: string,
    lockIdentity: LockIdentity,
    phase: CleanupPhase,
    dropObserved: bool,
    lastError: Option<ErrorCode>)

  function AdvanceChild(c: Child, target: CleanupPhase): Result<Child, ErrorCode> {
    if !((c.phase == CleanupPlanned && target == CleanupStarted) || (c.phase == CleanupStarted && target == CleanupCompleted)) then
      Err(CleanupPhaseInvalid)
    else if target == CleanupCompleted && !c.dropObserved then
      Err(DropNotObserved)
    else
      Ok(c.(phase := target))
  }

  /** The child names the same incident, lock and replacement database as its parent. */
  predicate BoundTo(main: Record, c: Child) {
    && main.cleanupId == Some(c.cleanupId)
    && main.incidentId == c.incidentId
    && main.lockIdentity == c.lockIdentity
    && main.resources.fixed.replacementDatabase == c.replacementDatabase
    && main.resources.fixed.replacementToken == c.replacementToken
    && main.resources.fixed.expectedOwner == c.expectedOwner
  }
}
