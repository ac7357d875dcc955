# Verification of the deploy layer and the normalizer keys

A Dafny 4.11 model of the journalled, crash-resumable protocols in `backend/app/deploy`
and of the episode and fingerprint keys in `backend/app/modules/normalizer`, with proofs
about whole runs. `dafny verify dfyconfig.toml` checks everything.

## How the model is built

* **Effects and crashes.** Every durable write and every effect on the world is one step.
  A recovery process has a life (`Wrappers.Lifetime`): it lives for ever, or dies after a
  given number of effects. The injected crashes of the recovery rehearsal are modelled
  beside that, at their three moments. In the retention deleter, the restore verification
  and the log rotation every effect draws an outcome from a schedule: it happens, fails
  before or after it happened, is cancelled, or the process dies at it.
* **Two forms.** Each imperative core appears as functions on values, about which the
  theorems speak, and as classes whose methods assign fields and loop as the program
  does (`RecoveryRehearsal`, `RetentionService`, `RestoreService`, `RotationService`, and
  the loops of `RetentionSelect`, `RotationBudget`, `RotationHeartbeat`, `Episode`). Every
  such method is proved to compute the function of the same role.
* **Recovery** (`Recovery*.dfy`). One state holds the main record, the optional cleanup
  child and the world. A machine is that state, what is left of the process's life, and
  a control flow; a call is the composition of its statements, so a call cut anywhere is
  the same composition with a shorter life. The world keeps a tally of how often each
  operation took effect. `SysInv` (RecoverySafety) says that the tally determines the
  world and that the durable phase, the record's facts and the tally agree.
* **Retention** (`Retention*.dfy`), **authorizations** (`Authorization.dfy`, threads taking
  steps), **restore** (`Restore*.dfy`), **rotation** (`Rotation*.dfy`), **keys**
  (`Decimal.dfy`, `Episode.dfy`, `Fingerprint.dfy`).
* **Idealised:** SHA-256 is injective; atomic file writes and renames are single steps;
  flocks exclude each other; a database command happens or does not; times count from a
  Monday midnight UTC, so days and ISO weeks are quotients; digits are ASCII.

## What turned out false, and exactly when it holds

* A rollback does not start from every listed entry phase: `env_switched` is in the entry
  set (production_recovery_models.py:262) but the guard at line 309 refuses every target
  other than its two forward successors (`RecoveryRollback.EntryAccepted`,
  `RecoveryRollback.RollbackConverges`). Two cut runs bring every planned incident there
  (`RecoveryWindows.RollbackRefusedReached`).
* A rollback restores the watchlist exactly when it was original before or its switch had
  been recorded (`RecoveryRollback.RollbackRestoresWatchlist`); a run that shows the loss
  exists for every planned incident (`RecoveryWindows.RollbackLosesWatchlist`).
* An uninterrupted run completes exactly from on-track states outside two windows in
  which a write-once verdict is durable but its phase is not
  (`RecoveryLiveness.RunConverges`); the windows are reached
  (`RecoveryWindows.VerificationWindowReached`, `RecoveryWindows.MonitorWindowReached`) and
  nothing leads out of them (`RecoveryWindows.WindowIsFinal`).
* A retention apply can be carried out exactly when every unfinished candidate has not
  been moved yet or still has its pending directory (`RetentionApply.ApplyConverges`);
  the window between the removal of the directory and the last journal write is reached
  for every plan with a candidate (`RetentionApply.WindowIsReached`). A storage fault before
  the rename is a second way to a disk no call recovers from, because the handler marks
  the candidate for cleanup although it was never moved
  (`RetentionApply.FaultWindowIsReached`).
* A restore cleanup that is itself cut between the drop and the deletion of the record
  can be repeated exactly in the phases in which the database may be absent
  (`Restore.CutCleanupRepeats`); in every other phase a run can be left whose cut cleanup
  no later one completes (`Restore.CleanupWindowReached`).
* A rotation run settles what earlier runs left exactly when no pending copy of an
  application log waits for the record of its truncation, or no heartbeat segment is pending
  (`RotationHistory.WorkingRunSettles`). Such a copy sorts before the heartbeat and stops
  every later run (`RotationHistory.BlockedForever`); one run with a failing truncation and
  a failing copy leaves a segment that is never archived
  (`RotationHistory.SegmentIsNeverArchived`).
* The range validator accepts what the normalizer prints exactly when the season is absent
  or at most 99 (`Episode.AcceptedExactly`); beyond that a resource gets no key
  (`Fingerprint.KeysExistExactly`). Metadata with season 100 prints `s100e1`, which is
  refused (`Episode.SeasonLimitReached`).

## Model

| member | source | states |
|---|---|---|
| RecoveryRecord.PlannedHistory | backend/app/deploy/production_recovery_record.py:125-298 | from a planned record every history of store calls keeps the facts of its phase, and the record only evolves |
| RecoveryRecord.HistoryInvariant | backend/app/deploy/production_recovery_record.py:232-298 | over all histories of store calls: passed verification, stop facts, settled protection, activation and generation hold from their phases on, and the record only evolves (write-once, sticky, terminal failure, point of no return) |
| RecoveryRecord.AdvanceKeepsStore | backend/app/deploy/production_recovery_models.py:270-331 | every accepted phase advance keeps the phase-indexed facts of the store |
| RecoveryRecord.AdvanceEvolves | backend/app/deploy/production_recovery_models.py:215-259 | an accepted advance strictly climbs the listed phases and respects the one-way branches |
| RecoveryRecord.UpdateKeepsStore | backend/app/deploy/production_recovery_record.py:314-419 | every accepted change set keeps the phase-indexed facts and the binding of the cleanup child |
| RecoveryRecord.UpdateEvolves | backend/app/deploy/production_recovery_record.py:422-446 | an accepted change set never rewrites a write-once fact, clears a sticky one or changes a fixed identity |
| RecoveryRecord.ChildKeepsStore | backend/app/deploy/production_recovery_record.py:448-565 | the child operations keep the child bound to its parent and leave the parent alone |
| RecoveryWorld.HandleKeeps | backend/app/deploy/production_recovery_fake.py:147-277 | an operation performed while still open under its intent keeps the world a function of the tally, and reads as completed afterwards |
| RecoveryWorld.EffectsFollow | backend/app/deploy/production_recovery_fake.py:289-360 | along the transition table, effects that a phase waited for stay exactly once |
| RecoverySafety.DoAllKeeps | backend/app/deploy/production_recovery_fake.py:624-693 | every state reached by any sequence of run, rollback, request and cleanup calls, each cut at any effect, satisfies the system invariant |
| RecoveryTheorems.StagedEnvIsBacked | backend/app/deploy/production_recovery_fake.py:147-253 | in every reachable state a staged env means a created, identified, restored and verified replacement, intact protected copies, and a phase from env_switch_started to rollback_env_started |
| RecoveryTheorems.DroppedMeansInactive | backend/app/deploy/production_recovery_fake.py:471-493 | the replacement is dropped at most once and never while the env is staged or the application uses it |
| RecoveryTheorems.RolledBackMeansOriginal | backend/app/deploy/production_recovery_fake.py:907-993 | in every reachable state, rolled_back means original env and application, ready, no monitor, and the original watchlist if its switch was recorded |
| RecoveryTheorems.PointOfNoReturn | backend/app/deploy/production_recovery_fake.py:660-669 | once the monitor start has taken effect, the phase is between monitor_start_started and completed, and no later call leaves that range |
| RecoveryTheorems.ManualBlocksCompletion | backend/app/deploy/production_recovery_models.py:324-328 | manual reconciliation recorded before completion makes completed unreachable |
| RecoveryTheorems.FailedVerificationIsFinal | backend/app/deploy/production_recovery_record.py:380-400 | a failed verification never leaves verification_started, and the env stays original |
| RecoveryTheorems.CompletedCleanupIsFinal | backend/app/deploy/production_recovery_record.py:300-312 | a completed cleanup has a bound terminal child, one observed drop, and no replacement in any later state |
| RecoveryProtocol.ActClimbs | backend/app/deploy/production_recovery_fake.py:995-1052 | every action of either loop that goes on has strictly climbed the phases, so the loops end |
| RecoveryConvergence.StepSmooth | backend/app/deploy/production_recovery_fake.py:995-1022 | a startable step with nothing failing never raises, and only a crash injected at its intent stops an immortal owner |
| RecoveryConvergence.ResumeSmooth | backend/app/deploy/production_recovery_fake.py:1024-1052 | the same for resuming under a durable intent |
| RecoveryForward.IterationSmooth | backend/app/deploy/production_recovery_fake.py:859-905 | on track and outside the windows the external facts hold and no iteration of the forward loop raises |
| RecoveryForward.ForwardLoopOnTrack | backend/app/deploy/production_recovery_fake.py:695-857 | the forward loop, cut anywhere, stays on track and follows the owner's choices |
| RecoveryLiveness.RunConverges | backend/app/deploy/production_recovery_fake.py:624-656 | an uninterrupted run with nothing failing completes if and only if the incident was complete, or is on track and in neither window |
| RecoveryLiveness.ReachableRunConverges | backend/app/deploy/production_recovery_fake.py:695-857 | the same if-and-only-if from every state any history of calls leaves |
| RecoveryLiveness.CutRunsConverge | backend/app/deploy/production_recovery_fake.py:695-857 | after any number of runs of one owner cut at any durable effect, an uninterrupted run passes exactly outside the windows, with every asked-for effect exactly once and no other |
| RecoveryLiveness.CrashedRunsConverge | backend/app/deploy/production_recovery_fake.py:48-57 | after any number of injected crashes an uninterrupted run always completes, each effect exactly once |
| RecoveryRollback.EntryAccepted | backend/app/deploy/production_recovery_models.py:262-317 | the advance accepts entering rollback exactly from the listed entry phases other than env_switched |
| RecoveryRollback.RollbackConverges | backend/app/deploy/production_recovery_fake.py:658-693 | an uninterrupted rollback ends in rolled_back if and only if it can enter, or is already inside the branch |
| RecoveryRollback.ReachableRollbackConverges | backend/app/deploy/production_recovery_fake.py:907-993 | the same from every reachable state, with the original system restored |
| RecoveryRollback.RollbackRestoresWatchlist | backend/app/deploy/production_recovery_fake.py:949-965 | a rollback that ends in rolled_back leaves the original watchlist if and only if it was original or its switch was recorded |
| RecoveryWindows.RollbackLosesWatchlist | backend/app/deploy/production_recovery_fake.py:951-951 | for every planned incident a crash between the switch and its record, then a rollback, ends rolled back with a staged watchlist |
| RecoveryWindows.WindowIsFinal | backend/app/deploy/production_recovery_record.py:380-400 | from a window no sequence of calls, whatever their configuration or life, moves the phase again |
| RecoveryWindows.VerificationWindowReached | backend/app/deploy/production_recovery_fake.py:1043-1052 | for every planned incident two cut runs reach the verification window |
| RecoveryWindows.MonitorWindowReached | backend/app/deploy/production_recovery_fake.py:1093-1103 | for every planned incident a run crashed behind the start of the monitor and one killed between the observation and its phase reach the monitor window |
| RecoveryWindows.RollbackRefusedReached | backend/app/deploy/production_recovery_models.py:262-317 | for every planned incident two cut runs leave env_switched, a listed entry phase, where an undisturbed rollback is refused |
| RecoveryCleanup.CleanupConverges | backend/app/deploy/production_recovery_fake.py:506-573 | an uninterrupted cleanup passes if and only if the incident is eligible, has then dropped the database exactly once, and otherwise changes nothing |
| RecoveryCleanup.CutCleanupsConverge | backend/app/deploy/production_recovery_fake.py:553-573 | after any number of cut requests and cleanups an eligible incident can still be cleaned up, with one drop in all |
| RecoveryCleanup.ReachableCleanupConverges | backend/app/deploy/production_recovery_fake.py:506-573 | the eligibility criterion from every reachable state |
| RecoveryRehearsal.FakeRecoveryWorld.Guard | backend/app/deploy/production_recovery_fake.py:147-277 | the check each handler makes before it acts refuses exactly when the handler would raise, with its error |
| RecoveryRehearsal.FakeRecoveryWorld.Handlers | backend/app/deploy/production_recovery_fake.py:117-145 | dispatching an accepted operation assigns exactly the fields its handler assigns |
| RecoveryRehearsal.FakeRecoveryWorld.OperationStatus | backend/app/deploy/production_recovery_fake.py:289-360 | the status of every operation read from the world's fields |
| RecoveryRehearsal.TempRecoveryRecordStore.UpdateFacts | backend/app/deploy/production_recovery_record.py:232-298 | the store writes an accepted change set, refuses every other with its error, and writes nothing when the process dies at the write |
| RecoveryRehearsal.FakeProductionRecoveryOrchestrator.RunStep | backend/app/deploy/production_recovery_fake.py:995-1022 | persist intent, act, persist facts, persist outcome, as the step function says, cut anywhere |
| RecoveryRehearsal.FakeProductionRecoveryOrchestrator.ResumeStep | backend/app/deploy/production_recovery_fake.py:1024-1052 | resuming acts only when the world says the operation is open |
| RecoveryRehearsal.FakeProductionRecoveryOrchestrator.RunForward | backend/app/deploy/production_recovery_fake.py:695-857 | the while loop over the durable phase computes the forward loop |
| RecoveryRehearsal.FakeProductionRecoveryOrchestrator.Run | backend/app/deploy/production_recovery_fake.py:624-656 | a run and its error handling compute the call that the theorems speak about |
| RecoveryRehearsal.FakeProductionRecoveryOrchestrator.Rollback | backend/app/deploy/production_recovery_fake.py:658-693 | a rollback and its error handling compute the call that the theorems speak about |
| RecoveryRehearsal.FakeCleanupCoordinator.ExecuteCleanup | backend/app/deploy/production_recovery_fake.py:553-573 | the coordinator's statements compute the cleanup that the theorems speak about |
| RetentionSelect.Select | backend/app/deploy/backup_retention.py:697-758 | the slot-by-slot loops compute the plan function, or its refusal |
| RetentionSelect.DailyIsNewestOfDay | backend/app/deploy/backup_retention.py:707-712 | a package wins a day if and only if its UTC day is in the window and it is the newest of that day |
| RetentionSelect.WeeklyIsNewestRemaining | backend/app/deploy/backup_retention.py:713-722 | a package wins a week if and only if its ISO week is in the window, it is no daily winner, and it is the newest such of its week |
| RetentionSelect.MinimumIsNewest | backend/app/deploy/backup_retention.py:723-723 | the minimum has as many packages as asked for or there are, each newer than every other package |
| RetentionSelect.FloorIsNewestVerified | backend/app/deploy/backup_retention.py:704-706 | the verified floor is exactly the newest verified package |
| RetentionSelect.NoneVerifiedRefused | backend/app/deploy/backup_retention.py:704-706 | without a verified package the plan is refused |
| RetentionSelect.ProtectedExactly | backend/app/deploy/backup_retention.py:723-727 | a package is protected if and only if it won a slot, is among the minimum, is pinned or held, or is the verified floor |
| RetentionSelect.PartitionsPackages | backend/app/deploy/backup_retention.py:727-728 | every package is either protected or a candidate, never both |
| RetentionSelect.CandidatesOldestFirst | backend/app/deploy/backup_retention.py:728-728 | candidates are listed oldest first |
| RetentionSelect.PostIsProtectedBytes | backend/app/deploy/backup_retention.py:729-738 | bytes after the plan are those of the protected packages; they and the total decide the budget status |
| RetentionSelect.SelectionIsStable | backend/app/deploy/backup_retention.py:697-758 | removing any candidates and selecting again gives the same winners, protection and floor, and the remaining candidates |
| RetentionSelect.AppliedPlanIsFinal | backend/app/deploy/backup_retention.py:697-758 | a plan that has been carried out leaves a plan without candidates and with the promised size |
| RetentionApply.CandidateKeeps | backend/app/deploy/backup_retention.py:586-680 | one candidate, under every schedule, keeps journal and disk in agreement; working storage finishes it if and only if it is resumable |
| RetentionApply.ApplyIsSafe | backend/app/deploy/backup_retention.py:490-526 | over all schedules of all calls: deleted entries, at most one in progress, then untouched ones; disk and journal agree; no package outside the candidates is touched |
| RetentionApply.ApplyConverges | backend/app/deploy/backup_retention.py:586-694 | the next call on working storage carries the plan out if and only if every candidate is resumable, leaving exactly the other packages |
| RetentionApply.StuckForever | backend/app/deploy/backup_retention.py:624-631 | a disk that is not resumable stays so under all later calls |
| RetentionApply.DeathsLeaveOneWindow | backend/app/deploy/backup_retention.py:655-668 | when calls are cut only by death, the only disk no call recovers from is one whose unfinished candidate is in neither directory |
| RetentionApply.WindowIsReached | backend/app/deploy/backup_retention.py:662-667 | for every plan with a candidate a death between the removal of the directory and the last write reaches that window |
| RetentionApply.FaultWindowIsReached | backend/app/deploy/backup_retention.py:669-675 | for every plan with a candidate a failing first journal write leaves a package in the root that no later call deletes |
| RetentionApply.CarriedOutIsFinal | backend/app/deploy/backup_retention.py:500-504 | a further call on a carried-out plan changes nothing under any schedule |
| RetentionApply.CarriedOutHasPromisedSize | backend/app/deploy/backup_retention.py:729-732 | the packages left by a carried-out selected plan have exactly its post-plan size |
| RetentionApply.SelectedPlanIsValid | backend/app/deploy/backup_retention.py:744-758 | a selected plan names packages and lists no candidate twice |
| RetentionService.TempRetentionApplyService.DeleteFiles | backend/app/deploy/backup_retention.py:632-654 | the while loop over the file index computes the file loop, from wherever the journal stands |
| RetentionService.TempRetentionApplyService.DeleteCandidate | backend/app/deploy/backup_retention.py:586-680 | one candidate with its exception handler, statement by statement |
| RetentionService.TempRetentionApplyService.ApplyPlan | backend/app/deploy/backup_retention.py:490-526 | a whole call computes the apply that the theorems speak about |
| Authorization.StepRetakes | backend/app/deploy/backup_retention_authorization.py:382-393 | every step changes only the stepping thread's flocks, to exactly those its place in the program calls for |
| Authorization.TerminalPhasesAreFinal | backend/app/deploy/backup_retention_authorization.py:325-379 | over every interleaving with crashes no record disappears and a consumed or cancelled one never changes |
| Authorization.HandedOnce | backend/app/deploy/backup_retention_authorization.py:344-379 | each authorization is handed out at most once, to a caller with its nonce; the copy handed out is the durable consumed record, written before its expiry, after its consumed predecessor |
| Authorization.HandedStaysSpent | backend/app/deploy/backup_retention_authorization.py:395-419 | what was handed out keeps its record, and its predecessor stays consumed with exactly the recorded digest, for ever |
| Authorization.NeverDeadlocked | backend/app/deploy/backup_retention_authorization.py:382-393 | in every reachable state with an unfinished call some call can take a step, whatever the clock reads |
| Authorization.WaitsUpwards | backend/app/deploy/backup_retention_authorization.py:357-358 | a thread that waits while holding a flock waits for a greater one |
| Restore.RunLeavesPhase | backend/app/deploy/restore_verify.py:265-350 | wherever a run is cut, fails or is cancelled, the recorded phase tells the truth about database and snapshot; a passed run has left nothing |
| Restore.WorkingRunExactly | backend/app/deploy/restore_verify.py:265-350 | with every effect working a run passes if and only if every check against the outside does |
| Restore.ResidueFree | backend/app/deploy/restore_verify.py:162-219 | after any cut run either nothing is left, or one working cleanup leaves nothing |
| Restore.CleanupExactly | backend/app/deploy/restore_verify.py:162-219 | an uninterrupted cleanup passes if and only if its guards do, leaves nothing then, and changes nothing otherwise |
| Restore.CleanupDropsOnlyOwn | backend/app/deploy/restore_verify.py:176-196 | under every schedule a cleanup drops only an owned, unused database whose comment its phase allows |
| Restore.CutCleanupRepeats | backend/app/deploy/restore_verify.py:170-175 | a cleanup that was cut can be repeated if and only if the database is still there or may be absent in its phase |
| Restore.CleanupWindowReached | backend/app/deploy/restore_verify.py:196-206 | in every other phase a run cut at a given effect, or failing, is left; a cleanup of it cut between the drop and the deletion leaves a record every later cleanup refuses, whatever its schedule |
| RestoreService.RestoreVerificationService.AdvanceRecord | backend/app/deploy/restore_recovery.py:56-64 | the table-driven advance writes the record file, and the copy in memory follows only when the write returns |
| RestoreService.RestoreVerificationService.RunLocked | backend/app/deploy/restore_verify.py:265-350 | the stages of a run, with its cancellation handler, compute the run that the theorems speak about |
| RestoreService.RestoreVerificationService.CleanupLocked | backend/app/deploy/restore_verify.py:162-219 | the statements of a cleanup compute the cleanup that the theorems speak about |
| RotationHeartbeat.CopyFixedSnapshot | backend/app/deploy/rotation_engine.py:388-413 | whatever the lengths of the reads, the copy is the longest newline-terminated prefix of the requested bytes; a file that is too short is an error |
| RotationHeartbeat.WholeLinesIsLongest | backend/app/deploy/rotation_engine.py:400-406 | the kept prefix ends with a newline and no newline follows it |
| RotationHistory.RecoverKeeps | backend/app/deploy/rotation_engine.py:465-478 | recovery of the heartbeat, cut or failing anywhere, neither loses nor duplicates a segment, and leaves nothing pending if it gets through |
| RotationHistory.RecoverCopiesKeeps | backend/app/deploy/rotation_engine.py:479-498 | recovery gets past the application copies only if all of them are truncated, and never drops one that is not |
| RotationHistory.RotateKeeps | backend/app/deploy/rotation_engine.py:327-386 | a rotation, cut or failing anywhere and rolled back or not, accounts for every byte written |
| RotationHistory.RetainKeeps | backend/app/deploy/rotation_engine.py:529-554 | the retention pass, cut or failing anywhere, takes only the oldest archives, in order; working, it leaves exactly as many as limit and budget allow |
| RotationHistory.WorkingRunSettles | backend/app/deploy/rotation_engine.py:75-137 | after any history of writes and runs one working run leaves nothing pending, unless an application copy blocks it; the evicted archives followed by those kept are then the whole lines of all segments, each once and in order, and the number kept is determined |
| RotationHistory.WholeLinesAreConserved | backend/app/deploy/rotation_engine.py:327-554 | when writers append whole lines, the evicted archives, those kept and the active log are everything ever written |
| RotationHistory.BlockedForever | backend/app/deploy/rotation_engine.py:479-493 | while a copy is not truncated no later write or run archives, sets aside or evicts anything |
| RotationHistory.SegmentIsNeverArchived | backend/app/deploy/rotation_engine.py:288-296 | a failing truncation and then a failing copy in one run leave a segment that no later history archives, whatever the first log holds |
| RotationService.RotationEngine.RunLocked | backend/app/deploy/rotation_engine.py:75-137 | clean, recover, check every target and apply retention, as statements on a directory, compute the run that the theorems speak about |
| RotationBudget.ApplyRetentionAndBudget | backend/app/deploy/rotation_engine.py:529-554 | both passes compute what is left, the count and the status; a dry run gives the same count and status and leaves every file; with a non-negative budget the rest fits, so the unrecoverable status never occurs |
| RotationBudget.EvictionIsShortest | backend/app/deploy/rotation_engine.py:542-551 | the evicted prefix is the shortest that suffices |
| RotationBudget.KeptMember | backend/app/deploy/rotation_engine.py:532-538 | an archive survives the first pass if and only if fewer than the limit of its target follow it |
| RotationBudget.LeftOfTarget | backend/app/deploy/rotation_engine.py:532-551 | among the archives of all logs, what both passes leave of one log is all but its oldest: the excess over its limit, then those the budget took |
| RotationBudget.NothingNewerGoes | backend/app/deploy/rotation_engine.py:529-554 | no archive that goes is newer than one of its target that stays |
| Episode.RangeRoundTrips | backend/app/modules/normalizer/core.py:155-219 | whatever is normalized, reading its printed range gives back the same kind, season, episode and range |
| Episode.AcceptedExactly | backend/app/modules/normalizer/fingerprint.py:33-53 | the validator accepts a normalized range if and only if the season is absent or at most 99 |
| Episode.CanonicalPrintsItself | backend/app/modules/normalizer/core.py:155-219 | every canonical text but unknown reads as an identity that prints that very text |
| Episode.NormalizedIsWellFormed | backend/app/modules/normalizer/core.py:222-408 | every branch of metadata and title normalization yields positive numbers in order and the print of what it says |
| Episode.ToPositiveInt | backend/app/modules/normalizer/core.py:119-140 | the loop over the characters computes the fold over digits and units |
| Episode.NumeralReads | backend/app/modules/normalizer/core.py:119-140 | every numeral below ten thousand is read as the number it spells, ten to nineteen both with a bare ten and with a leading one |
| Episode.SeasonLimitReached | backend/app/modules/normalizer/fingerprint.py:33-53 | metadata with season 100 and episode 1 prints s100e1, and the validator refuses it |
| Fingerprint.PayloadDecodable | backend/app/modules/normalizer/fingerprint.py:100-111 | the concatenation without separators determines title, range, type and year |
| Fingerprint.FingerprintsAgreeExactly | backend/app/modules/normalizer/fingerprint.py:100-111 | two resources share a fingerprint if and only if they agree in title, range, type and year |
| Fingerprint.CanonicalSuffixFree | backend/app/modules/normalizer/fingerprint.py:24-53 | no canonical range is a proper end of another |
| Fingerprint.ResourceKeyInjective | backend/app/modules/normalizer/fingerprint.py:65-74 | resource keys are injective even when titles contain colons |
| Fingerprint.WorkKeyInjective | backend/app/modules/normalizer/fingerprint.py:56-62 | work keys are injective even when titles contain colons |
| Fingerprint.EpisodeKeyInjective | backend/app/modules/normalizer/fingerprint.py:77-97 | episode keys determine type, title, season and episode |
| Fingerprint.KeysExistExactly | backend/app/modules/normalizer/core.py:436-470 | a normalized resource gets its keys and fingerprint if and only if its season is absent or at most 99 |

## Left out

* Recovery: `last_operation`, the time stamp of the last error, the result report, hooks,
  call counts and the `config_protected` flag; the time stamp of the first write is a
  constant; asynchronous cancellation is a death between effects.
* Recovery: attaching a world and tampering with its files from outside are not steps; the
  branches that detect foreign files are in the functions. A handler is one effect, except
  the protection of the configuration, which writes two files.
* Recovery: a missing protected copy is reported as an unknown identity; in the program the
  read fails with a file error. No reachable state has that copy missing where it is read.
* Recovery: calls are serialised; the cleanup coordinator is not safe under interleaving.
  The cleanup id is an injective function of the incident id instead of a digest.
* Recovery: the PostgreSQL rehearsal, a shorter copy of the same phase machine.
* Retention: inventory, pin mutation and pin reconciliation, plan files, and the checks of
  auxiliary directories that no statement of the deleter changes; failing reads. The size
  of a file is part of its digest.
* Authorization: the store is modelled on values, as a state machine whose steps are single
  file accesses, not as a class; error codes other than success and failure, and the
  payload fields that no lineage check reads, are not modelled.
* Restore: the dump's contents, tool versions, package validation before the run and the
  verification record written after it. The generated database has no other user unless a
  parameter says so.
* Rotation: the contents of application logs (copy and truncate, best effort by design) and
  their archives; their pending copies are modelled. Whether a log is due and how many
  archives the budget takes are parameters of a run. The status file: one that cannot be
  read ends a run before it does anything. Compression itself, and the removal of a
  temporary file after a failure, which the next run repeats. Names of archives are run
  identities in the order of their time stamps, and a file written later is not older.
* Rotation: the budget pass sorts twice by modification time; among archives of equal time
  the order of the directory listing is one fixed order here.
* Keys: regular-expression search in titles, Unicode normalization and title cleaning; what
  the patterns capture is a parameter. Trimming and case folding of the content type.
* Permissions, symbolic links, inodes and fsync are part of the atomic primitives.
