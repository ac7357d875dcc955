/**
 The rehearsal as the program runs it: a world and a record store whose fields the
 operations assign, an orchestrator that loops over the durable phase, and the cleanup
 coordinator. Every method is proved to compute the function of RecoveryProtocol with
 the same name on the value of its objects.
 */
module RecoveryRehearsal {
  import opened Wrappers
  import opened RecoveryModels
  import opened RecoveryRecord
  import opened RecoveryWorld
  import opened RecoveryProtocol

  /** The observed databases, services and files; the tally of effects is ghost. */
  class FakeRecoveryWorld {
    var protectionCreated: bool
    var created: bool
    var identified: bool
    var restored: bool
    var verified: bool
    var monitorRunning: bool
    var leaseFree: bool
    var app: AppDatabase
    var drained: bool
    var env: FileState
    var watchlist: FileState
    var ready: bool
    var generation: Option<string>
    var writeObserved: bool
    var protectedEnv: Option<FileState>
    var protectedWatchlist: Option<FileState>
    ghost var effects: multiset<Op>

    ghost function Value(): World
      reads this
    {
      World(protectionCreated, created, identified, restored, verified, monitorRunning, leaseFree, app, drained, env,
            watchlist, ready, generation, writeObserved, protectedEnv, protectedWatchlist, effects)
    }

    constructor ()
      ensures Value() == FRESH_WORLD
    {
      protectionCreated, created, identified, restored, verified := false, false, false, false, false;
      monitorRunning, leaseFree, app, drained := true, false, OnOriginal, false;
      env, watchlist, ready, generation, writeObserved := Original, Original, false, None, false;
      protectedEnv, protectedWatchlist := None, None;
      effects := multiset{};
    }

    /** The check a handler makes before it acts. */
    method Guard(op: Op) returns (refusal: Option<ActionError>)
      ensures refusal == match Handle(Value(), op) case Ok(_) => None case Err(e) => Some(e)
    {
      match op
      case CommitIdentity => refusal := if created then None else Some(ReplacementMissing);
      case Restore => refusal := if identified then None else Some(IdentityMissing);
      case Verify => refusal := if restored then None else Some(RestoreMissing);
      case ProtectConfig =>
        var known := ProtectionStatus() != Unclear;
        refusal := if env == Original && watchlist == Original && known then None else Some(ConfigIdentityUnknown);
      case SwitchEnv => refusal := if env == Foreign then Some(ConfigIdentityUnknown) else None;
      case SwitchWatchlist => refusal := if watchlist == Foreign then Some(WatchlistIdentityUnknown) else None;
      case StartReplacement => refusal := if env == Staged then None else Some(ReplacementNotActive);
      case CheckReplacement => refusal := if app == OnReplacement then None else Some(ReplacementNotRunning);
      case StartMonitor => refusal := if ready then None else Some(ApplicationNotReady);
      case RollbackEnv =>
        refusal := if env != Foreign && protectedEnv == Some(Original) then None else Some(ConfigIdentityUnknown);
      case RollbackWatchlist =>
        refusal := if watchlist != Foreign && protectedWatchlist == Some(Original) then None else Some(WatchlistIdentityUnknown);
      case StartOriginal => refusal := if env == Original then None else Some(OriginalNotActive);
      case CheckOriginal => refusal := if app == OnOriginal then None else Some(OriginalNotRunning);
      case _ => refusal := None;
    }

    /** Which of the two protected copies exist, and whether both are the original. */
    function ProtectionStatus(): (r: Status)
      reads this
      ensures r == ProtectionFiles(Value())
    {
      if protectedEnv.Some? && protectedEnv.value != Original then Unclear
      else if protectedWatchlist.Some? && protectedWatchlist.value != Original then Unclear
      else if protectedEnv.Some? && protectedWatchlist.Some? then Done else Pending
    }

    method StopMonitor()
      modifies this
      ensures Value() == old(Value()).(monitorRunning := false, leaseFree := true)
    {
      monitorRunning, leaseFree := false, true;
    }

    method StopApp()
      modifies this
      ensures Value() == old(Value()).(app := Stopped, drained := true, ready := false)
    {
      app, drained, ready := Stopped, true, false;
    }

    /** The first of the two files that protecting the configuration writes. */
    method WriteProtectedEnv()
      modifies this
      ensures Value() == CopyEnv(old(Value()))
    {
      protectedEnv := Some(Original);
    }

    method Protection()
      requires Handler(Value(), ProtectionBackup).Ok?
      modifies this
      ensures Value() == Handler(old(Value()), ProtectionBackup).value
    {
      protectionCreated := true;
    }

    method Create()
      requires Handler(Value(), CreateReplacement).Ok?
      modifies this
      ensures Value() == Handler(old(Value()), CreateReplacement).value
    {
      created := true;
    }

    method Identify()
      requires Handler(Value(), CommitIdentity).Ok?
      modifies this
      ensures Value() == Handler(old(Value()), CommitIdentity).value
    {
      identified := true;
    }

    method RestoreDump()
      requires Handler(Value(), Restore).Ok?
      modifies this
      ensures Value() == Handler(old(Value()), Restore).value
    {
      restored := true;
    }

    method VerifyReplacement()
      requires Handler(Value(), Verify).Ok?
      modifies this
      ensures Value() == Handler(old(Value()), Verify).value
    {
      verified := true;
    }

    method StopServicesBoth()
      requires Handler(Value(), StopServices).Ok?
      modifies this
      ensures Value() == Handler(old(Value()), StopServices).value
    {
      StopMonitor();
      StopApp();
    }

    method ProtectConfigFiles()
      requires Handler(Value(), ProtectConfig).Ok?
      modifies this
      ensures Value() == Handler(old(Value()), ProtectConfig).value
    {
      protectedEnv, protectedWatchlist := Some(Original), Some(Original);
    }

    method SwitchEnvFile()
      requires Handler(Value(), SwitchEnv).Ok?
      modifies this
      ensures Value() == Handler(old(Value()), SwitchEnv).value
    {
      env := Staged;
    }

    method SwitchWatchlistFile()
      requires Handler(Value(), SwitchWatchlist).Ok?
      modifies this
      ensures Value() == Handler(old(Value()), SwitchWatchlist).value
    {
      watchlist := Staged;
    }

    method StartReplacementApp()
      requires Handler(Value(), StartReplacement).Ok?
      modifies this
      ensures Value() == Handler(old(Value()), StartReplacement).value
    {
      app, drained := OnReplacement, false;
    }

    method CheckReplacementApp()
      requires Handler(Value(), CheckReplacement).Ok?
      modifies this
      ensures Value() == Handler(old(Value()), CheckReplacement).value
    {
      ready := true;
    }

    method StartMonitorWorker()
      requires Handler(Value(), StartMonitor).Ok?
      modifies this
      ensures Value() == Handler(old(Value()), StartMonitor).value
    {
      monitorRunning, leaseFree, generation := true, false, Some(GENERATION);
    }

    method RestoreEnvFile()
      requires Handler(Value(), RollbackEnv).Ok?
      modifies this
      ensures Value() == Handler(old(Value()), RollbackEnv).value
    {
      env := Original;
    }

    method RestoreWatchlistFile()
      requires Handler(Value(), RollbackWatchlist).Ok?
      modifies this
      ensures Value() == Handler(old(Value()), RollbackWatchlist).value
    {
      watchlist := Original;
    }

    method StartOriginalApp()
      requires Handler(Value(), StartOriginal).Ok?
      modifies this
      ensures Value() == Handler(old(Value()), StartOriginal).value
    {
      app, drained := OnOriginal, false;
    }

    method CheckOriginalApp()
      requires Handler(Value(), CheckOriginal).Ok?
      modifies this
      ensures Value() == Handler(old(Value()), CheckOriginal).value
    {
      ready := true;
    }

    method DropReplacement()
      requires Handler(Value(), CleanupDrop).Ok?
      modifies this
      ensures Value() == Handler(old(Value()), CleanupDrop).value
    {
      created, identified, restored, verified := false, false, false, false;
    }

    /** Dispatch an operation whose guard has passed. */
    method Handlers(op: Op)
      requires Handler(Value(), op).Ok?
      modifies this
      ensures Value() == Handler(old(Value()), op).value
    {
      match op
      case ProtectionBackup => Protection();
      case CreateReplacement => Create();
      case CommitIdentity => Identify();
      case Restore => RestoreDump();
      case Verify => VerifyReplacement();
      case StopServices => StopServicesBoth();
      case ProtectConfig => ProtectConfigFiles();
      case SwitchEnv => SwitchEnvFile();
      case SwitchWatchlist => SwitchWatchlistFile();
      case StartReplacement => StartReplacementApp();
      case CheckReplacement => CheckReplacementApp();
      case StartMonitor => StartMonitorWorker();
      case RollbackEnv => RestoreEnvFile();
      case RollbackWatchlist => RestoreWatchlistFile();
      case StartOriginal => StartOriginalApp();
      case CheckOriginal => CheckOriginalApp();
      case CleanupDrop => DropReplacement();
      case ObserveMonitor =>
      case RollbackStopMonitor => StopMonitor();
      case RollbackStopApp => StopApp();
    }

    method Perform(op: Op)
      requires Handle(Value(), op).Ok?
      modifies this
      ensures Value() == Handle(old(Value()), op).value
    {
      ghost var before := Value();
      Handlers(op);
      ghost var after := Value();
      effects := before.effects[op := before.effects[op] + 1];
      assert Value() == after.(effects := before.effects[op := before.effects[op] + 1]);
    }

    /** What a resumed owner concludes from what it sees. */
    method OperationStatus(op: Op) returns (status: Status)
      ensures status == StatusOf(Value(), op)
    {
      var complete := false;
      match op {
        case ProtectionBackup => complete := protectionCreated;
        case CreateReplacement => complete := created;
        case CommitIdentity => complete := identified;
        case Restore => complete := restored;
        case Verify => complete := verified;
        case StopServices => complete := app == Stopped && drained;
        case RollbackStopApp => complete := app == Stopped && drained;
        case RollbackStopMonitor => complete := !monitorRunning && leaseFree;
        case ProtectConfig =>
          if ProtectionStatus() == Unclear { return Unclear; }
          complete := ProtectionStatus() == Done;
        case SwitchEnv =>
          if env == Foreign { return Unclear; }
          complete := env == Staged;
        case SwitchWatchlist =>
          if watchlist == Foreign { return Unclear; }
          complete := watchlist == Staged;
        case StartReplacement =>
          if app == OnUnknown { return Unclear; }
          complete := app == OnReplacement;
        case CheckReplacement => complete := ready;
        case StartMonitor =>
          if monitorRunning && generation != None && generation != Some(GENERATION) { return Unclear; }
          complete := monitorRunning && generation == Some(GENERATION);
        case RollbackEnv =>
          if env == Foreign { return Unclear; }
          complete := env == Original;
        case RollbackWatchlist =>
          if watchlist == Foreign { return Unclear; }
          complete := watchlist == Original;
        case StartOriginal =>
          if app == OnUnknown { return Unclear; }
          complete := app == OnOriginal;
        case CheckOriginal => complete := app == OnOriginal && ready;
        case ObserveMonitor => complete := false;
        case CleanupDrop => return Unclear;
      }
      status := if complete then Done else Pending;
    }
  }

  /** The record files of one incident. Every call reads the stored record, checks, and writes. */
  class TempRecoveryRecordStore {
    var main: Record
    var child: Option<Child>

    function Value(): Store
      reads this
    {
      Store(main, child)
    }

    constructor (planned: Record)
      ensures Value() == Store(planned, None)
    {
      main, child := planned, None;
    }

    /**
     Advance on behalf of an owner that holds this copy of the record. The last thing the
     call does is the durable write; a process that dies at it has written nothing.
     */
    method Advance(current: Record, target: Phase, alive: bool) returns (r: Result<Record, ErrorCode>)
      modifies this
      ensures current != old(main) ==> r == Err(RecordStale) && Value() == old(Value())
      ensures current == old(main) ==> Written(old(Value()), RecoveryRecord.Advance(old(Value()), target), r, alive)
    {
      if main != current { return Err(RecordStale); }
      r := AdvanceRecord(main, target);
      if r.Ok? && alive { main := r.value; }
    }

    /** The outcome of a call that checks and then writes. */
    ghost predicate Written(before: Store, outcome: Result<Store, ErrorCode>, r: Result<Record, ErrorCode>, alive: bool)
      reads this
    {
      match outcome
      case Ok(s) => r == Ok(s.main) && Value() == (if alive then s else before)
      case Err(e) => r == Err(e) && Value() == before
    }

    method UpdateFacts(current: Record, f: Facts, alive: bool) returns (r: Result<Record, ErrorCode>)
      modifies this
      ensures current != old(main) ==> r == Err(RecordStale) && Value() == old(Value())
      ensures current == old(main) ==> Written(old(Value()), RecoveryRecord.UpdateFacts(old(Value()), f), r, alive)
    {
      if main != current { return Err(RecordStale); }
      if f == NO_FACTS || !FactsAllowed(main, f) { return Err(FactUpdateInvalid); }
      if f.cleanupCompleted == Set(true) && !main.cleanupCompleted {
        var terminal := TerminalChild(Value());
        if terminal.Err? { return Err(terminal.error); }
      }
      if !ValidRecord(Applied(main, f)) { return Err(FactUpdateInvalid); }
      r := Ok(Applied(main, f));
      if alive { main := r.value; }
    }

    /** The outcome of a call that checks and then writes the child. */
    ghost predicate ChildWritten(before: Store, outcome: Result<Store, ErrorCode>, refusal: Option<ErrorCode>, alive: bool)
      reads this
    {
      match outcome
      case Ok(s) => refusal.None? && Value() == (if alive then s else before)
      case Err(e) => refusal == Some(e) && Value() == before
    }

    method CreateCleanup(expected: Child, alive: bool) returns (refusal: Option<ErrorCode>)
      modifies this
      ensures ChildWritten(old(Value()), CreateChild(old(Value()), expected), refusal, alive)
    {
      if !main.cleanupRequested || !BoundTo(main, expected) { return Some(CleanupIdentityInvalid); }
      if child.Some? && child.value != expected { return Some(CleanupIdentityInvalid); }
      if alive { child := Some(expected); }
      refusal := None;
    }

    method AdvanceCleanup(target: CleanupPhase, alive: bool) returns (refusal: Option<ErrorCode>)
      modifies this
      ensures ChildWritten(old(Value()), AdvanceStoredChild(old(Value()), target), refusal, alive)
    {
      var known := ReadChild(Value());
      if known.Err? { return Some(known.error); }
      var updated := AdvanceChild(known.value, target);
      if updated.Err? { return Some(updated.error); }
      if alive { child := Some(updated.value); }
      refusal := None;
    }

    method RecordDrop(alive: bool) returns (refusal: Option<ErrorCode>)
      modifies this
      ensures ChildWritten(old(Value()), UpdateChildFacts(old(Value()), Set(true), Keep), refusal, alive)
    {
      var known := ReadChild(Value());
      if known.Err? { return Some(known.error); }
      if known.value.phase != CleanupStarted || known.value.dropObserved { return Some(CleanupFactUpdateInvalid); }
      if alive { child := Some(known.value.(dropObserved := true)); }
      refusal := None;
    }
  }

  /** The owner of one incident, with its copy of the record and what is left of its life. */
  class FakeProductionRecoveryOrchestrator {
    const store: TempRecoveryRecordStore
    const world: FakeRecoveryWorld
    const cfg: Config
    var life: Lifetime
    var flow: Flow
    var current: Record

    ghost predicate Valid()
      reads this, store
    {
      flow == Live ==> current == store.main
    }

    ghost function Snapshot(): Machine
      reads this, store, world
    {
      Machine(Sys(store.Value(), world.Value()), life, flow)
    }

    constructor (store: TempRecoveryRecordStore, world: FakeRecoveryWorld, cfg: Config, life: Lifetime)
      ensures this.store == store && this.world == world && this.cfg == cfg
      ensures Valid() && Snapshot() == Machine(Sys(store.Value(), world.Value()), life, Live)
    {
      this.store, this.world, this.cfg, this.life := store, world, cfg, life;
      flow, current := Live, store.main;
    }

    /** Spend one durable effect, or die at it. */
    method Spend() returns (alive: bool)
      requires flow == Live
      modifies this
      ensures alive == (old(life) != Effects(0)) && current == old(current)
      ensures life == (if old(life).Effects? && alive then Effects(old(life).n - 1) else old(life))
      ensures flow == (if alive then Live else Died)
    {
      alive := life != Effects(0);
      if !alive {
        flow := Died;
      } else if life.Effects? {
        life := Effects(life.n - 1);
      }
    }

    /** Take the result of a call to the store: raise its error, or keep the new copy unless the write was the end. */
    method Settle(r: Result<Record, ErrorCode>)
      requires flow == Live
      modifies this
      ensures r.Err? ==> flow == Raised(RecordFailed(r.error)) && life == old(life)
      ensures r.Ok? ==> flow == (if old(life) == Effects(0) then Died else Live) && current == r.value
      ensures r.Ok? && old(life).Effects? && old(life).n > 0 ==> life == Effects(old(life).n - 1)
      ensures r.Ok? && (old(life) == Effects(0) || old(life).Immortal?) ==> life == old(life)
    {
      if r.Err? {
        flow := Raised(RecordFailed(r.error));
      } else {
        var _ := Spend();
        current := r.value;
      }
    }

    method Advance(target: Phase)
      requires Valid()
      modifies this, store
      ensures Valid() && Snapshot() == LeaseAdvance(old(Snapshot()), target)
    {
      if flow == Live {
        var r := store.Advance(current, target, life != Effects(0));
        Settle(r);
      }
    }

    method UpdateFacts(f: Facts)
      requires Valid()
      modifies this, store
      ensures Valid() && Snapshot() == LeaseFacts(old(Snapshot()), f)
    {
      if flow == Live {
        var r := store.UpdateFacts(current, f, life != Effects(0));
        Settle(r);
      }
    }

    method UpdateFactsIfAny(f: Facts)
      requires Valid()
      modifies this, store
      ensures Valid() && Snapshot() == FactsIfAny(old(Snapshot()), f)
    {
      if f != NO_FACTS { UpdateFacts(f); }
    }

    method Crash(phase: Phase, moment: Moment)
      requires Valid()
      modifies this
      ensures Valid() && Snapshot() == CrashPoint(old(Snapshot()), cfg, phase, moment)
    {
      if flow == Live && cfg.crash == Some(CrashInjection(phase, moment)) { flow := Died; }
    }

    method PerformOperation(op: Op)
      requires Valid()
      modifies this, world
      ensures Valid() && Snapshot() == Perform(old(Snapshot()), op, cfg.failures)
    {
      if flow != Live { return; }
      if op in cfg.failures {
        flow := Raised(ActionFailed(OperationFailed(op)));
        return;
      }
      var refusal := world.Guard(op);
      if refusal.Some? {
        flow := Raised(ActionFailed(refusal.value));
        return;
      }
      Effect(op);
    }

    /** The effect itself, once nothing refuses it: for the configuration two files, one after the other. */
    method Effect(op: Op)
      requires Valid() && flow == Live && op !in cfg.failures && Handle(world.Value(), op).Ok?
      modifies this, world
      ensures Valid() && Snapshot() == Perform(old(Snapshot()), op, cfg.failures)
    {
      ghost var before := world.Value();
      if op == ProtectConfig && world.protectedEnv.None? {
        var copied := Spend();
        if !copied { return; }
        world.WriteProtectedEnv();
        CopyThenProtect(before);
      }
      var alive := Spend();
      if alive { world.Perform(op); }
    }

    /** Record what was done, then the outcome phase. */
    method FinishOperation(op: Op)
      requires Valid()
      modifies this, store
      ensures Valid() && Snapshot() == Finish(old(Snapshot()), op)
    {
      if op == ProtectConfig { UpdateFacts(ProtectedResources(store.main)); }
      UpdateFactsIfAny(Report(op));
      Advance(Outcome(op));
    }

    method ActThenFinish(op: Op, phase: Phase)
      requires Valid()
      modifies this, store, world
      ensures Valid() && Snapshot() == ActAndFinish(old(Snapshot()), cfg, op, phase)
    {
      PerformOperation(op);
      Crash(phase, AfterAction);
      FinishOperation(op);
    }

    method RunStep(op: Op)
      requires Valid()
      modifies this, store, world
      ensures Valid() && Snapshot() == Step(old(Snapshot()), cfg, op)
    {
      Advance(Intent(op));
      Crash(Intent(op), AfterIntent);
      ActThenFinish(op, Intent(op));
    }

    method ResumeStep(op: Op)
      requires Valid()
      modifies this, store, world
      ensures Valid() && Snapshot() == Resume(old(Snapshot()), cfg, op)
    {
      if flow != Live { return; }
      var status := world.OperationStatus(op);
      match status
      case Unclear => flow := Raised(ActionFailed(ExternalFactUnknown));
      case Pending => ActThenFinish(op, current.phase);
      case Done => FinishOperation(op);
    }

    method SkipProtectionBackup()
      requires Valid()
      modifies this, store
      ensures Valid() && Snapshot() == SkipStep(old(Snapshot()), cfg)
    {
      UpdateFacts(SkipFacts(store.main));
      Crash(PROTECTION_BACKUP_SKIPPED, AfterFacts);
      Advance(PROTECTION_BACKUP_SKIPPED);
      Crash(PROTECTION_BACKUP_SKIPPED, AfterIntent);
    }

    method ContinueAfterEnv()
      requires Valid()
      modifies this, store, world
      ensures Valid() && Snapshot() == AfterEnvStep(old(Snapshot()), cfg)
    {
      if cfg.watchlistSwitch {
        UpdateFacts(WatchlistFacts(store.main));
        RunStep(SwitchWatchlist);
      } else {
        Advance(CONFIG_SWITCHED);
      }
    }

    method AuthorizeMonitorStart()
      requires Valid()
      modifies this, store
      ensures Valid() && Snapshot() == AuthorizeStep(old(Snapshot()), cfg)
    {
      UpdateFacts(AuthorizeFacts(store.main));
      Crash(MONITOR_START_AUTHORIZED, AfterFacts);
      Advance(MONITOR_START_AUTHORIZED);
      Crash(MONITOR_START_AUTHORIZED, AfterIntent);
    }

    method ObserveFirstWrite()
      requires Valid()
      modifies this, store, world
      ensures Valid() && Snapshot() == ObserveStep(old(Snapshot()), cfg)
    {
      var seen := world.writeObserved;
      PerformOperation(ObserveMonitor);
      UpdateFacts(ObserveFacts(seen));
      if seen { Advance(MONITOR_WRITE_OBSERVED); }
      Advance(COMPLETED);
    }

    method Take(a: Action)
      requires Valid() && flow == Live
      modifies this, store, world
      ensures Valid() && Snapshot() == Act(old(Snapshot()), cfg, a)
    {
      match a
      case Fresh(op) => RunStep(op);
      case Again(op) => ResumeStep(op);
      case SkipProtection => SkipProtectionBackup();
      case AfterEnv => ContinueAfterEnv();
      case AuthorizeMonitor => AuthorizeMonitorStart();
      case Observe => ObserveFirstWrite();
      case Plain(target) => Advance(target);
      case Stuck => flow := Raised(RecordFailed(PhaseInvalid));
    }

    method ExternalFactsHold() returns (ok: bool)
      requires Valid() && flow == Live
      ensures ok == ExternalFactsOk(Snapshot().sys)
    {
      var p := current.phase;
      if p < ENV_SWITCH_STARTED && world.env != Original { return false; }
      if ENV_SWITCHED <= p <= MONITOR_WRITE_OBSERVED {
        if world.env != Staged { return false; }
        var expected := if current.watchlistWasSwitched then Staged else Original;
        if p != WATCHLIST_SWITCH_STARTED && world.watchlist != expected { return false; }
      }
      ok := true;
    }

    /** The forward loop over the durable phase. */
    method RunForward()
      requires Valid()
      modifies this, store, world
      ensures Valid() && Snapshot() == ForwardLoop(old(Snapshot()), cfg)
    {
      while flow == Live && current.phase != COMPLETED
        invariant Valid()
        invariant ForwardLoop(Snapshot(), cfg) == ForwardLoop(old(Snapshot()), cfg)
        decreases if flow == Live then 43 - store.main.phase else 0
      {
        ghost var before := Snapshot();
        var ok := ExternalFactsHold();
        if ok {
          Take(ForwardAction(current.phase, cfg));
        } else {
          flow := Raised(ActionFailed(ExternalFactUnknown));
        }
        assert Snapshot() == ForwardIteration(before, cfg);
        IterationClimbs(before, cfg);
      }
    }

    /** Handle what the loop raised with the record read again. */
    method Recover(f: Facts)
      modifies this, store
      ensures Valid() && Snapshot() == LeaseFacts(old(Snapshot()).(flow := Live), f)
    {
      flow, current := Live, store.main;
      UpdateFacts(f);
    }

    method VerdictOf(v: Verdict) returns (verdict: Verdict)
      ensures (Snapshot().sys, verdict) == RecoveryProtocol.Settle(Snapshot(), v)
    {
      match flow
      case Live => verdict := v;
      case Died => verdict := Crashed;
      case Raised(e) => verdict := Escaped(e);
    }

    method Run() returns (verdict: Verdict)
      requires Valid() && flow == Live
      modifies this, store, world
      ensures (Snapshot().sys, verdict) == RecoveryProtocol.Run(old(Snapshot().sys), cfg, old(life))
    {
      RunForward();
      ghost var reached := Snapshot();
      match flow
      case Live => verdict := Pass;
      case Died => verdict := Crashed;
      case Raised(e) =>
        match e {
          case ActionFailed(a) =>
            Recover(FailureFacts(store.main, ActionCode(a)));
            verdict := VerdictOf(Fail(ActionCode(a)));
          case RecordFailed(code) =>
            if code == ManualReconciliationRequired { Recover(ManualFacts(code)); }
            else { flow := Live; }
            verdict := VerdictOf(Fail(code));
        }
      assert (Snapshot().sys, verdict) == RunHandler(reached);
    }

    /** The rollback loop over the durable phase. */
    method RunRollback()
      requires Valid()
      modifies this, store, world
      ensures Valid() && Snapshot() == RollbackLoop(old(Snapshot()), cfg)
    {
      while flow == Live && current.phase != ROLLED_BACK
        invariant Valid()
        invariant RollbackLoop(Snapshot(), cfg) == RollbackLoop(old(Snapshot()), cfg)
        decreases if flow == Live then 43 - store.main.phase else 0
      {
        ActClimbs(Snapshot(), cfg, RollbackAction(store.main));
        Take(RollbackAction(current));
      }
    }

    method Rollback() returns (verdict: Verdict)
      requires Valid() && flow == Live
      modifies this, store, world
      ensures (Snapshot().sys, verdict) == RecoveryProtocol.Rollback(old(Snapshot().sys), cfg, old(life))
    {
      if MONITOR_START_STARTED <= current.phase <= COMPLETED {
        UpdateFacts(NO_FACTS.(manual := Set(true), lastError := Set(Some(ManualReconciliationRequired))));
        verdict := VerdictOf(Partial(None));
        return;
      }
      if !(ROLLBACK_STARTED <= current.phase <= ROLLBACK_READINESS_PASSED) {
        Advance(ROLLBACK_STARTED);
        Crash(ROLLBACK_STARTED, AfterIntent);
      }
      RunRollback();
      ghost var reached := Snapshot();
      match flow
      case Live => verdict := Pass;
      case Died => verdict := Crashed;
      case Raised(e) =>
        match e {
          case ActionFailed(a) =>
            if ActionCode(a) == ManualReconciliationRequired {
              Recover(ManualFacts(ManualReconciliationRequired));
              verdict := VerdictOf(Partial(Some(ManualReconciliationRequired)));
            } else {
              verdict := Fail(RollbackFailed);
            }
          case RecordFailed(code) => verdict := Fail(code);
        }
      assert (Snapshot().sys, verdict) == RollbackHandler(reached);
    }
  }

  /** The coordinator that drops the replacement of an eligible incident once. */
  class FakeCleanupCoordinator {
    const store: TempRecoveryRecordStore
    const world: FakeRecoveryWorld
    var life: Lifetime
    var flow: Flow

    ghost function Snapshot(): Machine
      reads this, store, world
    {
      Machine(Sys(store.Value(), world.Value()), life, flow)
    }

    constructor (store: TempRecoveryRecordStore, world: FakeRecoveryWorld, life: Lifetime)
      ensures this.store == store && this.world == world
      ensures Snapshot() == Machine(Sys(store.Value(), world.Value()), life, Live)
    {
      this.store, this.world, this.life, this.flow := store, world, life, Live;
    }

    /** After a call: raise its refusal, or spend the effect of its write. */
    method Settle(refusal: Option<ErrorCode>)
      requires flow == Live
      modifies this
      ensures flow == (if refusal.Some? then Raised(RecordFailed(refusal.value)) else if old(life) == Effects(0) then Died else Live)
      ensures life == (if refusal.None? && old(life).Effects? && old(life).n > 0 then Effects(old(life).n - 1) else old(life))
    {
      if refusal.Some? {
        flow := Raised(RecordFailed(refusal.value));
      } else if life == Effects(0) {
        flow := Died;
      } else if life.Effects? {
        life := Effects(life.n - 1);
      }
    }

    method UpdateMain(f: Facts)
      requires flow == Live
      modifies this, store
      ensures Snapshot() == LeaseFacts(old(Snapshot()), f)
    {
      var r := store.UpdateFacts(store.main, f, life != Effects(0));
      Settle(if r.Err? then Some(r.error) else None);
    }

    method RequestChild()
      requires flow == Live
      modifies this, store
      ensures Snapshot() == Persist(old(Snapshot()), CreateChild(old(store.Value()), ExpectedChild(old(store.main))))
    {
      var refusal := store.CreateCleanup(ExpectedChild(store.main), life != Effects(0));
      Settle(refusal);
    }

    method RequestCleanup()
      modifies this, store
      ensures Snapshot() == Request(old(Snapshot()))
    {
      if flow != Live { return; }
      if world.env == Staged || (store.main.replacementActivated && store.main.phase != ROLLED_BACK)
         || !(store.main.phase == ROLLED_BACK
              || ((store.main.phase == RESTORE_STARTED || store.main.phase == VERIFICATION_STARTED) && !store.main.replacementActivated)) {
        flow := Raised(RecordFailed(CleanupForbidden));
        return;
      }
      var id := CleanupIdOf(store.main.incidentId);
      var newly := !store.main.cleanupRequested;
      if newly {
        UpdateMain(RequestFacts(store.main));
        if flow != Live { return; }
      }
      if store.main.cleanupId != Some(id) {
        flow := Raised(RecordFailed(CleanupIdentityInvalid));
        return;
      }
      var known := ReadChild(store.Value());
      if newly || known == Err(RecordInvalid) {
        RequestChild();
      } else if known.Err? {
        flow := Raised(RecordFailed(known.error));
      }
    }

    method DropDatabase()
      requires flow == Live
      modifies this, world
      ensures Snapshot() == Drop(old(Snapshot()))
    {
      if world.env == Staged {
        flow := Raised(RecordFailed(CleanupForbidden));
        return;
      }
      var alive := life != Effects(0);
      Settle(None);
      if alive { world.Perform(CleanupDrop); }
    }

    method StartCleanup()
      modifies this, store
      ensures Snapshot() == StartChild(old(Snapshot()))
    {
      if flow == Live && (store.child.None? || store.child.value.phase == CleanupPlanned) {
        var refusal := store.AdvanceCleanup(CleanupStarted, life != Effects(0));
        Settle(refusal);
      }
    }

    method RecordDropped()
      modifies this, store
      ensures Snapshot() == Persist(old(Snapshot()), UpdateChildFacts(old(store.Value()), Set(true), Keep))
    {
      if flow != Live { return; }
      var refusal := store.RecordDrop(life != Effects(0));
      Settle(refusal);
    }

    method DropReplacementOnce()
      modifies this, store, world
      ensures Snapshot() == DropOnce(old(Snapshot()))
    {
      if flow == Live && store.child.Some? && store.child.value.phase == CleanupStarted && !store.child.value.dropObserved {
        if world.created { DropDatabase(); }
        RecordDropped();
      }
    }

    method FinishCleanup()
      modifies this, store
      ensures Snapshot() == CompleteCleanup(CompleteChild(old(Snapshot())))
    {
      if flow == Live && store.child.Some? && store.child.value.phase == CleanupStarted {
        var refusal := store.AdvanceCleanup(CleanupCompleted, life != Effects(0));
        Settle(refusal);
      }
      if flow != Live { return; }
      if store.child.None? || store.child.value.phase != CleanupCompleted || !store.child.value.dropObserved {
        flow := Raised(RecordFailed(CleanupNotCompleted));
      } else {
        UpdateMain(NO_FACTS.(cleanupCompleted := Set(true)));
      }
    }

    method ExecuteCleanup()
      modifies this, store, world
      ensures Snapshot() == Execute(old(Snapshot()))
    {
      RequestCleanup();
      StartCleanup();
      DropReplacementOnce();
      FinishCleanup();
    }
  }

  lemma CopyThenProtect(w: World)
    requires Handle(w, ProtectConfig).Ok?
    ensures Handle(CopyEnv(w), ProtectConfig) == Handle(w, ProtectConfig)
  {
  }
}
