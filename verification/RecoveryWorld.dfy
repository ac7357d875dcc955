/**
 The world outside the durable record (FakeRecoveryWorld in
 backend/app/deploy/production_recovery_fake.py): databases, services, the two
 active configuration files and their protected copies. A handler is a function
 from one durable world to the next, or the error it raises; the world also keeps
 how often each operation has taken effect.
 */
module RecoveryWorld {
  import opened Wrappers
  import opened RecoveryModels

  datatype FileState = Original | Staged | Foreign

  datatype AppDatabase = OnOriginal | OnReplacement | Stopped | OnUnknown

  datatype Op =
    | ProtectionBackup | CreateReplacement | CommitIdentity | Restore | Verify
    | StopServices | ProtectConfig | SwitchEnv | SwitchWatchlist
    | StartReplacement | CheckReplacement | StartMonitor | ObserveMonitor
    | RollbackStopMonitor | RollbackStopApp | RollbackEnv | RollbackWatchlist
    | StartOriginal | CheckOriginal
    | CleanupDrop

  datatype ActionError =
    | OperationFailed(op: Op)
    | ReplacementMissing | IdentityMissing | RestoreMissing
    | ConfigIdentityUnknown | WatchlistIdentityUnknown | ExternalFactUnknown
    | ReplacementNotActive | ReplacementNotRunning | ApplicationNotReady
    | OriginalNotActive | OriginalNotRunning

  datatype World = World(
    protectionCreated: bool,
    created: bool,
    identified: bool,
    restored: bool,
    verified: bool,
    monitorRunning: bool,
    leaseFree: bool,
    app: AppDatabase,
    drained: bool,
    env: FileState,
    watchlist: FileState,
    ready: bool,
    generation: Option<string>,
    writeObserved: bool,
    protectedEnv: Option<FileState>,
    protectedWatchlist: Option<FileState>,
    effects: multiset<Op>)

  const GENERATION := "fake-generation-1"
  const BASELINE := "fake-baseline-0"

  const FRESH_WORLD :=
    World(false, false, false, false, false, true, false, OnOriginal, false, Original, Original,
          false, None, false, None, None, multiset{})

  datatype Status = Done | Pending | Unclear

  function Observed(complete: bool): Status {
    if complete then Done else Pending
  }

  function ProtectionFiles(w: World): Status {
    if w.protectedEnv.Some? && w.protectedEnv.value != Original then Unclear
    else if w.protectedWatchlist.Some? && w.protectedWatchlist.value != Original then Unclear
    else Observed(w.protectedEnv.Some? && w.protectedWatchlist.Some?)
  }

  /** What a resumed owner concludes about an operation from the observed world. */
  function StatusOf(w: World, op: Op): Status {
    match op
    case ProtectionBackup => Observed(w.protectionCreated)
    case CreateReplacement => Observed(w.created)
    case CommitIdentity => Observed(w.identified)
    case Restore => Observed(w.restored)
    case Verify => Observed(w.verified)
    case StopServices => Observed(w.app == Stopped && w.drained)
    case RollbackStopApp => Observed(w.app == Stopped && w.drained)
    case RollbackStopMonitor => Observed(!w.monitorRunning && w.leaseFree)
    case ProtectConfig => ProtectionFiles(w)
    case SwitchEnv => if w.env == Foreign then Unclear else Observed(w.env == Staged)
    case SwitchWatchlist => if w.watchlist == Foreign then Unclear else Observed(w.watchlist == Staged)
    case StartReplacement => if w.app == OnUnknown then Unclear else Observed(w.app == OnReplacement)
    case CheckReplacement => Observed(w.ready)
    case StartMonitor =>
      if w.monitorRunning && w.generation != None && w.generation != Some(GENERATION) then Unclear
      else Observed(w.monitorRunning && w.generation == Some(GENERATION))
    case RollbackEnv => if w.env == Foreign then Unclear else Observed(w.env == Original)
    case RollbackWatchlist => if w.watchlist == Foreign then Unclear else Observed(w.watchlist == Original)
    case StartOriginal => if w.app == OnUnknown then Unclear else Observed(w.app == OnOriginal)
    case CheckOriginal => Observed(w.app == OnOriginal && w.ready)
    case ObserveMonitor => Pending
    case CleanupDrop => Unclear
  }

  /** The handler of one operation. */
  function Handler(w: World, op: Op): Result<World, ActionError> {
    match op
    case ProtectionBackup => Ok(w.(protectionCreated := true))
    case CreateReplacement => Ok(w.(created := true))
    case CommitIdentity => if !w.created then Err(ReplacementMissing) else Ok(w.(identified := true))
    case Restore => if !w.identified then Err(IdentityMissing) else Ok(w.(restored := true))
    case Verify => if !w.restored then Err(RestoreMissing) else Ok(w.(verified := true))
    case StopServices =>
      Ok(w.(monitorRunning := false, leaseFree := true, app := Stopped, drained := true, ready := false))
    case ProtectConfig =>
      if w.env != Original || w.watchlist != Original || ProtectionFiles(w) == Unclear then Err(ConfigIdentityUnknown)
      else Ok(w.(protectedEnv := Some(Original), protectedWatchlist := Some(Original)))
    case SwitchEnv => if w.env == Foreign then Err(ConfigIdentityUnknown) else Ok(w.(env := Staged))
    case SwitchWatchlist =>
      if w.watchlist == Foreign then Err(WatchlistIdentityUnknown) else Ok(w.(watchlist := Staged))
    case StartReplacement =>
      if w.env != Staged then Err(ReplacementNotActive) else Ok(w.(app := OnReplacement, drained := false))
    case CheckReplacement =>
      if w.app != OnReplacement then Err(ReplacementNotRunning) else Ok(w.(ready := true))
    case StartMonitor =>
      if !w.ready then Err(ApplicationNotReady)
      else Ok(w.(monitorRunning := true, leaseFree := false, generation := Some(GENERATION)))
    case ObserveMonitor => Ok(w)
    case RollbackStopMonitor => Ok(w.(monitorRunning := false, leaseFree := true))
    case RollbackStopApp => Ok(w.(app := Stopped, drained := true, ready := false))
    case RollbackEnv =>
      if w.env == Foreign || w.protectedEnv != Some(Original) then Err(ConfigIdentityUnknown)
      else Ok(w.(env := Original))
    case RollbackWatchlist =>
      if w.watchlist == Foreign || w.protectedWatchlist != Some(Original) then Err(WatchlistIdentityUnknown)
      else Ok(w.(watchlist := Original))
    case StartOriginal =>
      if w.env != Original then Err(OriginalNotActive) else Ok(w.(app := OnOriginal, drained := false))
    case CheckOriginal => if w.app != OnOriginal then Err(OriginalNotRunning) else Ok(w.(ready := true))
    case CleanupDrop =>
      Ok(w.(created := false, identified := false, restored := false, verified := false))
  }

  /** The handler, and one more in the tally; the copy of the two files is split by CopyEnv below. */
  function Handle(w: World, op: Op): Result<World, ActionError> {
    match Handler(w, op)
    case Err(e) => Err(e)
    case Ok(w') => Ok(w'.(effects := w.effects[op := w.effects[op] + 1]))
  }

  /** First half of protecting the configuration: only the env copy is on disk. */
  function CopyEnv(w: World): World {
    w.(protectedEnv := Some(Original))
  }

  // ------------------------------------------------- the effects determine the world

  /** Every field of the world is a function of how often each operation took effect. */
  predicate Consistent(w: World) {
    var n := w.effects;
    && n[ProtectionBackup] <= 1 && n[CreateReplacement] <= 1 && n[CommitIdentity] <= 1 && n[Restore] <= 1 && n[Verify] <= 1
    && n[StopServices] <= 1 && n[ProtectConfig] <= 1 && n[SwitchEnv] <= 1 && n[SwitchWatchlist] <= 1
    && n[StartReplacement] <= 1 && n[CheckReplacement] <= 1 && n[StartMonitor] <= 1
    && n[RollbackStopMonitor] <= 1 && n[RollbackStopApp] <= 1 && n[RollbackEnv] <= 1 && n[RollbackWatchlist] <= 1
    && n[StartOriginal] <= 1 && n[CheckOriginal] <= 1 && n[CleanupDrop] <= 1
    && w.protectionCreated == (n[ProtectionBackup] == 1)
    && w.created == (n[CreateReplacement] == 1 && n[CleanupDrop] == 0)
    && w.identified == (n[CommitIdentity] == 1 && n[CleanupDrop] == 0)
    && w.restored == (n[Restore] == 1 && n[CleanupDrop] == 0)
    && w.verified == (n[Verify] == 1 && n[CleanupDrop] == 0)
    && w.monitorRunning == (n[StopServices] == 0 || n[StartMonitor] == 1)
    && w.leaseFree == !w.monitorRunning
    && w.app == (if n[StopServices] == 0 || n[StartOriginal] == 1 then OnOriginal
                 else if n[StartReplacement] == 1 && n[RollbackStopApp] == 0 then OnReplacement
                 else Stopped)
    && w.drained == (w.app == Stopped)
    && w.env == (if n[SwitchEnv] == 1 && n[RollbackEnv] == 0 then Staged else Original)
    && w.watchlist == (if n[SwitchWatchlist] == 1 && n[RollbackWatchlist] == 0 then Staged else Original)
    && w.ready == (n[CheckOriginal] == 1 || (n[CheckReplacement] == 1 && n[RollbackStopApp] == 0))
    && w.generation == (if n[StartMonitor] == 1 then Some(GENERATION) else None)
    && (w.protectedEnv.Some? ==> w.protectedEnv.value == Original)
    && (w.protectedWatchlist.Some? ==> w.protectedWatchlist.value == Original && w.protectedEnv.Some?)
    && (n[ProtectConfig] == 1 <==> w.protectedEnv.Some? && w.protectedWatchlist.Some?)
  }

  /** Before phase i an operation has not happened, past it it has happened once. */
  predicate Once(k: Phase, i: Phase, n: nat) {
    (k < i ==> n == 0) && (k > i ==> n == 1)
  }

  /** The same for the operations a rollback may cut off. */
  predicate OnceForward(k: Phase, i: Phase, n: nat) {
    (k < i ==> n == 0) && (i < k <= COMPLETED ==> n == 1)
  }

  /** Which operations have taken effect when the durable phase is k. */
  predicate EffectsAt(k: Phase, switched: bool, protection: bool, w: World) {
    var n := w.effects;
    && (k == PLANNED ==> n[ProtectionBackup] == 0)
    && (k >= PROTECTION_BACKUP_COMPLETED ==> n[ProtectionBackup] == if protection then 1 else 0)
    && Once(k, REPLACEMENT_CREATE_STARTED, n[CreateReplacement])
    && Once(k, IDENTITY_COMMIT_STARTED, n[CommitIdentity])
    && Once(k, RESTORE_STARTED, n[Restore])
    && Once(k, VERIFICATION_STARTED, n[Verify])
    && Once(k, SERVICES_STOP_STARTED, n[StopServices])
    && Once(k, CONFIG_PROTECTION_STARTED, n[ProtectConfig])
    && (k < CONFIG_PROTECTION_STARTED ==> w.protectedEnv.None? && w.protectedWatchlist.None?)
    && OnceForward(k, ENV_SWITCH_STARTED, n[SwitchEnv])
    && (k < WATCHLIST_SWITCH_STARTED ==> n[SwitchWatchlist] == 0)
    && (WATCHLIST_SWITCH_STARTED < k <= COMPLETED ==> n[SwitchWatchlist] == if switched then 1 else 0)
    && (switched ==> n[SwitchWatchlist] == 1)
    && OnceForward(k, APPLICATION_START_STARTED, n[StartReplacement])
    && OnceForward(k, READINESS_STARTED, n[CheckReplacement])
    && n[CheckReplacement] <= n[StartReplacement]
    && OnceForward(k, MONITOR_START_STARTED, n[StartMonitor])
    && (k > COMPLETED ==> n[StartMonitor] == 0)
    && n[RollbackStopMonitor] == 0
    && (k < ROLLBACK_APPLICATION_STOP_STARTED ==> n[RollbackStopApp] == 0)
    && (k > ROLLBACK_APPLICATION_STOP_STARTED ==> n[StartReplacement] == 0 || n[RollbackStopApp] == 1)
    && (k < ROLLBACK_ENV_STARTED ==> n[RollbackEnv] == 0)
    && (k > ROLLBACK_ENV_STARTED ==> n[SwitchEnv] == 0 || n[RollbackEnv] == 1)
    && (k < ROLLBACK_WATCHLIST_STARTED ==> n[RollbackWatchlist] == 0)
    && (n[RollbackWatchlist] == 1 ==> switched)
    && (k > ROLLBACK_WATCHLIST_STARTED && switched ==> n[RollbackWatchlist] == 1)
    && Once(k, ROLLBACK_APPLICATION_START_STARTED, n[StartOriginal])
    && Once(k, ROLLBACK_READINESS_STARTED, n[CheckOriginal])
    && (n[CleanupDrop] == 1 ==> k == RESTORE_STARTED || k == VERIFICATION_STARTED || k == ROLLED_BACK)
  }

  /** The intent that is made durable before an operation is performed. */
  function Intent(op: Op): Phase {
    match op
    case ProtectionBackup => PROTECTION_BACKUP_STARTED
    case CreateReplacement => REPLACEMENT_CREATE_STARTED
    case CommitIdentity => IDENTITY_COMMIT_STARTED
    case Restore => RESTORE_STARTED
    case Verify => VERIFICATION_STARTED
    case StopServices => SERVICES_STOP_STARTED
    case ProtectConfig => CONFIG_PROTECTION_STARTED
    case SwitchEnv => ENV_SWITCH_STARTED
    case SwitchWatchlist => WATCHLIST_SWITCH_STARTED
    case StartReplacement => APPLICATION_START_STARTED
    case CheckReplacement => READINESS_STARTED
    case StartMonitor => MONITOR_START_STARTED
    case ObserveMonitor => MONITOR_STARTED
    case RollbackStopMonitor => ROLLBACK_STARTED
    case RollbackStopApp => ROLLBACK_APPLICATION_STOP_STARTED
    case RollbackEnv => ROLLBACK_ENV_STARTED
    case RollbackWatchlist => ROLLBACK_WATCHLIST_STARTED
    case StartOriginal => ROLLBACK_APPLICATION_START_STARTED
    case CheckOriginal => ROLLBACK_READINESS_STARTED
    case CleanupDrop => ROLLED_BACK
  }

  /** What must have happened for the record to leave phase k. */
  predicate Settles(k: Phase, switched: bool, protection: bool, w: World) {
    var n := w.effects;
    && (k == PLANNED ==> !protection)
    && (k == PROTECTION_BACKUP_STARTED ==> n[ProtectionBackup] == 1 && protection)
    && (k == REPLACEMENT_CREATE_STARTED ==> n[CreateReplacement] == 1)
    && (k == IDENTITY_COMMIT_STARTED ==> n[CommitIdentity] == 1)
    && (k == RESTORE_STARTED ==> n[Restore] == 1 && n[CleanupDrop] == 0)
    && (k == VERIFICATION_STARTED ==> n[Verify] == 1 && n[CleanupDrop] == 0)
    && (k == SERVICES_STOP_STARTED ==> n[StopServices] == 1)
    && (k == CONFIG_PROTECTION_STARTED ==> n[ProtectConfig] == 1)
    && (k == WATCHLIST_SWITCH_STARTED ==> n[SwitchWatchlist] == 1 && switched)
    && (k == ROLLBACK_APPLICATION_STOP_STARTED ==> n[StartReplacement] == 0 || n[RollbackStopApp] == 1)
    && (k == ROLLBACK_ENV_STARTED ==> n[SwitchEnv] == 0 || n[RollbackEnv] == 1)
    && (k == ROLLBACK_WATCHLIST_STARTED ==> n[RollbackWatchlist] == 1)
    && (k == ROLLBACK_APPLICATION_START_STARTED ==> n[StartOriginal] == 1)
    && (k == ROLLBACK_READINESS_STARTED ==> n[CheckOriginal] == 1)
  }

  /** The same for the forward switches, which a rollback need not wait for. */
  predicate SettlesSwitch(k: Phase, w: World) {
    && (k == ENV_SWITCH_STARTED ==> w.effects[SwitchEnv] == 1)
    && (k == APPLICATION_START_STARTED ==> w.effects[StartReplacement] == 1)
    && (k == READINESS_STARTED ==> w.effects[CheckReplacement] == 1)
    && (k == MONITOR_START_STARTED ==> w.effects[StartMonitor] == 1)
  }

  /** Leaving a phase whose operation has happened, along the table, keeps the effects in place. */
  lemma EffectsFollow(k: Phase, k': Phase, switched: bool, protection: bool, w: World)
    requires EffectsAt(k, switched, protection, w)
    requires CanFollow(k, k')
    requires k' == PROTECTION_BACKUP_STARTED || Settles(k, switched, protection, w)
    requires SettlesSwitch(k, w)
    requires k == ROLLBACK_ENV_COMPLETED && k' == ROLLBACK_APPLICATION_START_STARTED ==> !switched
    ensures EffectsAt(k', switched, protection, w)
  {
  }

  lemma EffectsEnterRollback(k: Phase, switched: bool, protection: bool, w: World)
    requires EffectsAt(k, switched, protection, w) && RollbackEntry(k)
    ensures EffectsAt(ROLLBACK_STARTED, switched, protection, w)
  {
  }

  /** A completed status settles the intent it belongs to. */
  lemma DoneSettles(switched: bool, protection: bool, w: World, op: Op)
    requires Consistent(w) && EffectsAt(Intent(op), switched, protection, w)
    requires op != CleanupDrop && StatusOf(w, op) == Done
    requires op == ProtectionBackup ==> protection
    requires op == SwitchWatchlist || op == RollbackWatchlist ==> switched
    ensures Settles(Intent(op), switched, protection, w) && SettlesSwitch(Intent(op), w)
  {
  }

  /** An operation not yet performed under its own intent reads as pending. */
  lemma FreshIsOpen(switched: bool, protection: bool, w: World, op: Op)
    requires Consistent(w) && EffectsAt(Intent(op), switched, protection, w)
    requires op != CleanupDrop && op != RollbackStopMonitor && op != ObserveMonitor
    requires w.effects[op] == 0
    requires op == RollbackWatchlist ==> switched
    requires Handle(w, op).Ok?
    ensures Opening(Intent(op), switched, protection, w, op)
  {
  }

  /** A pending status means the operation has not been performed, unless its database was dropped. */
  lemma PendingIsOpen(switched: bool, protection: bool, w: World, op: Op)
    requires Consistent(w) && EffectsAt(Intent(op), switched, protection, w)
    requires op != CleanupDrop && op != ObserveMonitor
    requires StatusOf(w, op) == Pending && Handle(w, op).Ok?
    requires op == RollbackWatchlist ==> switched
    ensures op != RollbackStopMonitor && Opening(Intent(op), switched, protection, w, op)
  {
  }

  /** An operation that is still open, about to be performed under its own intent. */
  predicate Opening(k: Phase, switched: bool, protection: bool, w: World, op: Op) {
    && Consistent(w) && EffectsAt(k, switched, protection, w)
    && k == Intent(op)
    && (StatusOf(w, op) == Pending || op == RollbackStopApp || op == RollbackEnv)
    && w.effects[op] == 0
    && (op == RollbackWatchlist ==> switched)
    && Handle(w, op).Ok?
  }

  predicate Settled(k: Phase, switched: bool, protection: bool, w: World, op: Op) {
    Consistent(w) && EffectsAt(k, switched, protection, w) && StatusOf(w, op) == Done
  }

  lemma HandleKeepsData(k: Phase, switched: bool, protection: bool, w: World, op: Op)
    requires op == ProtectionBackup || op == CreateReplacement || op == CommitIdentity || op == Restore || op == Verify
    requires Opening(k, switched, protection, w, op)
    ensures Settled(k, switched, protection, Handle(w, op).value, op)
  {
  }

  lemma HandleKeepsServices(k: Phase, switched: bool, protection: bool, w: World, op: Op)
    requires op == StopServices || op == StartReplacement || op == CheckReplacement || op == StartMonitor
    requires Opening(k, switched, protection, w, op)
    ensures Settled(k, switched, protection, Handle(w, op).value, op)
  {
  }

  lemma HandleKeepsConfig(k: Phase, switched: bool, protection: bool, w: World, op: Op)
    requires op == ProtectConfig || op == SwitchEnv || op == SwitchWatchlist
    requires Opening(k, switched, protection, w, op)
    ensures Settled(k, switched, protection, Handle(w, op).value, op)
  {
  }

  lemma HandleKeepsRollback(k: Phase, switched: bool, protection: bool, w: World, op: Op)
    requires op == StartOriginal || op == CheckOriginal
    requires Opening(k, switched, protection, w, op)
    ensures Settled(k, switched, protection, Handle(w, op).value, op)
  {
  }

  lemma HandleKeepsStopApp(k: Phase, switched: bool, protection: bool, w: World)
    requires Opening(k, switched, protection, w, RollbackStopApp)
    ensures Settled(k, switched, protection, Handle(w, RollbackStopApp).value, RollbackStopApp)
  {
  }

  lemma HandleKeepsRollbackFiles(k: Phase, switched: bool, protection: bool, w: World, op: Op)
    requires op == RollbackEnv || op == RollbackWatchlist
    requires Opening(k, switched, protection, w, op)
    ensures Settled(k, switched, protection, Handle(w, op).value, op)
  {
  }

  /** Performing an open operation under its own intent keeps the invariants and completes it. */
  lemma HandleKeeps(k: Phase, switched: bool, protection: bool, w: World, op: Op)
    requires Opening(k, switched, protection, w, op)
    requires op != CleanupDrop && op != ObserveMonitor && op != RollbackStopMonitor
    ensures Settled(k, switched, protection, Handle(w, op).value, op)
  {
    match op
    case ProtectionBackup => HandleKeepsData(k, switched, protection, w, op);
    case CreateReplacement => HandleKeepsData(k, switched, protection, w, op);
    case CommitIdentity => HandleKeepsData(k, switched, protection, w, op);
    case Restore => HandleKeepsData(k, switched, protection, w, op);
    case Verify => HandleKeepsData(k, switched, protection, w, op);
    case StopServices => HandleKeepsServices(k, switched, protection, w, op);
    case StartReplacement => HandleKeepsServices(k, switched, protection, w, op);
    case CheckReplacement => HandleKeepsServices(k, switched, protection, w, op);
    case StartMonitor => HandleKeepsServices(k, switched, protection, w, op);
    case ProtectConfig => HandleKeepsConfig(k, switched, protection, w, op);
    case SwitchEnv => HandleKeepsConfig(k, switched, protection, w, op);
    case SwitchWatchlist => HandleKeepsConfig(k, switched, protection, w, op);
    case RollbackStopApp => HandleKeepsStopApp(k, switched, protection, w);
    case RollbackEnv => HandleKeepsRollbackFiles(k, switched, protection, w, op);
    case RollbackWatchlist => HandleKeepsRollbackFiles(k, switched, protection, w, op);
    case _ => HandleKeepsRollback(k, switched, protection, w, op);
  }
}
