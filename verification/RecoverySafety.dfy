/**
 Safety of the rehearsal protocol over whole runs: one invariant of the durable
 system that every statement of every call keeps, wherever the call is cut.
 */
module RecoverySafety {
  import opened Wrappers
  import opened RecoveryModels
  import opened RecoveryRecord
  import opened RecoveryWorld
  import opened RecoveryProtocol

  /** A planned incident beside a world in which nothing has happened yet. */
  predicate FreshSys(s: Sys) {
    FreshRecord(s.store.main) && s.store.child.None? && s.world == FRESH_WORLD
  }

  predicate NoneOr<T(==)>(o: Option<T>, v: T) {
    o.None? || o.value == v
  }

  /** Values this protocol writes into the write-once fields, and facts no earlier phase may hold. */
  predicate RecordShape(r: Record) {
    && NoneOr(r.generation, GENERATION) && NoneOr(r.baseline, BASELINE)
    && (r.firstWriteAt.Some? ==> r.firstWrite != Unknown)
    && NoneOr(r.protection.backupId, PROTECTION_ID) && NoneOr(r.protection.manifest, PROTECTION_MANIFEST)
    && NoneOr(r.protection.dump, PROTECTION_DUMP) && NoneOr(r.protection.watchlist, PROTECTION_WATCHLIST)
    && (r.protectionStatus != ProtectionDone ==> NoneFrozen(r.protection))
    && (r.phase == PLANNED ==> r.protectionStatus != ProtectionDone)
    && NoneOr(r.resources.protectedEnv, r.resources.fixed.originalEnv)
    && NoneOr(r.resources.protectedWatchlist, r.resources.fixed.originalWatchlist)
    && NoneOr(r.cleanupId, CleanupIdOf(r.incidentId))
    && (r.phase < ENV_SWITCHED ==> !r.watchlistAuthorized)
    && (r.phase < ENV_SWITCH_STARTED ==> !r.replacementActivated)
    && (r.cleanupRequested ==> r.phase >= RESTORE_STARTED)
    && (ROLLBACK_WATCHLIST_STARTED <= r.phase <= ROLLBACK_WATCHLIST_COMPLETED ==> r.watchlistWasSwitched)
    && (r.phase == MONITOR_START_AUTHORIZED ==> r.generation.Some? && r.baseline.Some?)
    && (r.phase == MONITOR_WRITE_OBSERVED ==> r.firstWrite != Unknown)
  }

  /** The child's drop fact and the drop itself go together. */
  predicate CleanupShape(s: Sys) {
    var dropped := s.world.effects[CleanupDrop] == 1;
    && (dropped ==> s.store.child.Some? && s.store.child.value.phase != CleanupPlanned)
    && (s.store.child.Some? && s.store.child.value.dropObserved ==> dropped)
    && (s.store.child.Some? && s.store.child.value.phase == CleanupCompleted ==> s.store.child.value.dropObserved)
    && (s.store.child.Some? ==> s.store.child.value.phase == CleanupPlanned ==> !s.store.child.value.dropObserved)
  }

  predicate WorldMatches(r: Record, w: World) {
    Consistent(w) && EffectsAt(r.phase, r.watchlistWasSwitched, r.protectionStatus == ProtectionDone, w)
  }

  predicate SysInv(s: Sys) {
    StoreInv(s.store) && RecordShape(s.store.main) && WorldMatches(s.store.main, s.world) && CleanupShape(s)
  }

  lemma FreshSatisfies(s: Sys)
    requires FreshSys(s)
    ensures SysInv(s)
  {
  }

  // ---------------------------------------------------------------- statements

  /** The record may leave its phase for this one: what the phase waits for has happened. */
  predicate MayLeave(s: Sys, target: Phase) {
    var r := s.store.main;
    && (target == MONITOR_START_AUTHORIZED ==> r.generation.Some? && r.baseline.Some?)
    && (target == MONITOR_WRITE_OBSERVED ==> r.firstWrite != Unknown)
    && (target == ROLLBACK_STARTED || target == PROTECTION_BACKUP_STARTED
        || (Settles(r.phase, r.watchlistWasSwitched, r.protectionStatus == ProtectionDone, s.world) && SettlesSwitch(r.phase, s.world)))
  }

  lemma AdvanceKeepsShape(s: Sys, target: Phase)
    requires SysInv(s) && Advance(s.store, target).Ok? && MayLeave(s, target)
    ensures RecordShape(Advance(s.store, target).value.main)
    ensures CleanupShape(s.(store := Advance(s.store, target).value))
  {
  }

  lemma AdvanceKeepsWorld(s: Sys, target: Phase)
    requires WorldMatches(s.store.main, s.world) && Advance(s.store, target).Ok? && MayLeave(s, target)
    ensures WorldMatches(Advance(s.store, target).value.main, s.world)
  {
    var r := s.store.main;
    var r' := Advance(s.store, target).value.main;
    assert r' == r.(phase := target);
    var sw, pr := r.watchlistWasSwitched, r.protectionStatus == ProtectionDone;
    assert EffectsAt(target, sw, pr, s.world) by {
      if target == ROLLBACK_STARTED {
        EffectsEnterRollback(r.phase, sw, pr, s.world);
      } else {
        EffectsFollow(r.phase, target, sw, pr, s.world);
      }
    }
  }

  lemma AdvanceKeepsSys(s: Sys, target: Phase)
    requires SysInv(s) && Advance(s.store, target).Ok? && MayLeave(s, target)
    ensures SysInv(s.(store := Advance(s.store, target).value))
  {
    AdvanceKeepsStore(s.store, target);
    AdvanceKeepsShape(s, target);
    AdvanceKeepsWorld(s, target);
  }

  lemma PersistKeeps(m: Machine, r: Result<Store, ErrorCode>)
    requires SysInv(m.sys)
    requires m.flow == Live && r.Ok? ==> SysInv(m.sys.(store := r.value))
    ensures SysInv(Persist(m, r).sys)
    ensures Persist(m, r).sys.world == m.sys.world
    ensures Persist(m, r).flow == Live ==> m.flow == Live && r.Ok? && Persist(m, r).sys.store == r.value
  {
  }

  lemma AdvanceKeeps(m: Machine, target: Phase)
    requires SysInv(m.sys)
    requires m.flow == Live ==> MayLeave(m.sys, target)
    ensures SysInv(LeaseAdvance(m, target).sys)
    ensures LeaseAdvance(m, target).flow == Live ==>
              m.flow == Live && LeaseAdvance(m, target).sys.store.main == m.sys.store.main.(phase := target)
    ensures LeaseAdvance(m, target).sys.world == m.sys.world
  {
    if m.flow == Live && Advance(m.sys.store, target).Ok? { AdvanceKeepsSys(m.sys, target); }
    PersistKeeps(m, Advance(m.sys.store, target));
  }

  /** A change set that claims nothing the world does not bear out. */
  predicate Honest(s: Sys, f: Facts) {
    var r, n := s.store.main, s.world.effects;
    && (f.watchlistWasSwitched.Set? ==> r.phase == WATCHLIST_SWITCH_STARTED && n[SwitchWatchlist] == 1)
    && (f.replacementActivated.Set? ==> r.phase == ENV_SWITCH_STARTED)
    && (f.watchlistAuthorized.Set? ==> r.phase == ENV_SWITCHED)
    && (f.protectionStatus.Set? ==> r.phase == (if f.protectionStatus.value == ProtectionDone then PROTECTION_BACKUP_STARTED else PLANNED))
    && (f.protectionId.Set? || f.protectionManifest.Set? || f.protectionDump.Set? || f.protectionWatchlist.Set? ==>
          f.protectionStatus == Set(ProtectionDone))
    && (f.protectionId.Set? ==> f.protectionId.value == Some(PROTECTION_ID))
    && (f.protectionManifest.Set? ==> f.protectionManifest.value == Some(PROTECTION_MANIFEST))
    && (f.protectionDump.Set? ==> f.protectionDump.value == Some(PROTECTION_DUMP))
    && (f.protectionWatchlist.Set? ==> f.protectionWatchlist.value == Some(PROTECTION_WATCHLIST))
    && (f.generation.Set? ==> f.generation.value == Some(GENERATION))
    && (f.baseline.Set? ==> f.baseline.value == Some(BASELINE))
    && (f.resources.Set? ==>
          && f.resources.value.protectedEnv == Some(r.resources.fixed.originalEnv)
          && f.resources.value.protectedWatchlist == Some(r.resources.fixed.originalWatchlist))
    && (f.cleanupId.Set? ==> f.cleanupId.value == Some(CleanupIdOf(r.incidentId)))
    && (f.cleanupRequested.Set? ==> r.phase >= RESTORE_STARTED)
  }

  lemma FactsKeepShape(s: Sys, f: Facts)
    requires SysInv(s) && Honest(s, f) && UpdateFacts(s.store, f).Ok?
    ensures RecordShape(Applied(s.store.main, f))
  {
  }

  lemma FactsKeepWorld(s: Sys, f: Facts)
    requires SysInv(s) && Honest(s, f) && UpdateFacts(s.store, f).Ok?
    ensures WorldMatches(Applied(s.store.main, f), s.world)
  {
  }

  lemma FactsKeepSys(s: Sys, f: Facts)
    requires SysInv(s) && Honest(s, f) && UpdateFacts(s.store, f).Ok?
    ensures SysInv(s.(store := UpdateFacts(s.store, f).value))
  {
    UpdateKeepsStore(s.store, f);
    FactsKeepShape(s, f);
    FactsKeepWorld(s, f);
  }

  lemma FactsKeep(m: Machine, f: Facts)
    requires SysInv(m.sys)
    requires m.flow == Live ==> Honest(m.sys, f)
    ensures SysInv(LeaseFacts(m, f).sys)
    ensures LeaseFacts(m, f).flow == Live ==> m.flow == Live && LeaseFacts(m, f).sys.store.main == Applied(m.sys.store.main, f)
    ensures LeaseFacts(m, f).sys.world == m.sys.world
  {
    if m.flow == Live && UpdateFacts(m.sys.store, f).Ok? { FactsKeepSys(m.sys, f); }
    PersistKeeps(m, UpdateFacts(m.sys.store, f));
  }

  /** An operation under its own intent that is still open, if its handler accepts at all. */
  predicate ReadyFor(s: Sys, op: Op) {
    var r := s.store.main;
    && r.phase == Intent(op) && op != CleanupDrop && op != ObserveMonitor && op != RollbackStopMonitor
    && (Handle(s.world, op).Ok? ==>
          Opening(Intent(op), r.watchlistWasSwitched, r.protectionStatus == ProtectionDone, s.world, op))
  }

  lemma CopyEnvKeeps(s: Sys)
    requires SysInv(s) && s.store.main.phase == CONFIG_PROTECTION_STARTED && s.world.protectedEnv.None?
    ensures SysInv(s.(world := CopyEnv(s.world)))
  {
  }

  lemma HandleKeepsSys(s: Sys, op: Op)
    requires SysInv(s) && ReadyFor(s, op) && Handle(s.world, op).Ok?
    ensures SysInv(s.(world := Handle(s.world, op).value)) && StatusOf(Handle(s.world, op).value, op) == Done
  {
    var r := s.store.main;
    HandleKeeps(r.phase, r.watchlistWasSwitched, r.protectionStatus == ProtectionDone, s.world, op);
    HandleSparesCleanup(s.world, op);
  }

  lemma HandleSparesCleanup(w: World, op: Op)
    requires op != CleanupDrop && Handle(w, op).Ok?
    ensures Handle(w, op).value.effects[CleanupDrop] == w.effects[CleanupDrop]
  {
  }

  lemma CommitKeeps(m: Machine, next: Sys)
    requires SysInv(m.sys)
    requires m.flow == Live ==> SysInv(next)
    ensures SysInv(Commit(m, next).sys)
    ensures Commit(m, next).flow == Live ==> m.flow == Live && Commit(m, next).sys == next
    ensures Commit(m, next).sys == m.sys || Commit(m, next).sys == next
  {
  }

  lemma PerformKeeps(m: Machine, op: Op, failures: set<Op>)
    requires SysInv(m.sys)
    requires m.flow == Live ==> ReadyFor(m.sys, op)
    ensures var m' := Perform(m, op, failures);
            && SysInv(m'.sys) && m'.sys.store == m.sys.store
            && (m'.flow == Live ==> m.flow == Live && StatusOf(m'.sys.world, op) == Done)
  {
    if m.flow == Live && op !in failures && Handle(m.sys.world, op).Ok? {
      HandleKeepsSys(m.sys, op);
      var copied := m.sys.(world := CopyEnv(m.sys.world));
      var m1 := if op == ProtectConfig && m.sys.world.protectedEnv.None? then Commit(m, copied) else m;
      if op == ProtectConfig && m.sys.world.protectedEnv.None? {
        CopyEnvKeeps(m.sys);
        CommitKeeps(m, copied);
      }
      CommitKeeps(m1, m1.sys.(world := Handle(m.sys.world, op).value));
    }
  }

  // ---------------------------------------------------------------- steps

  predicate Rehearsed(r: Record, op: Op) {
    && op != CleanupDrop && op != ObserveMonitor
    && (op == RollbackWatchlist ==> r.watchlistWasSwitched)
  }

  lemma ReportIsHonest(s: Sys, op: Op)
    requires SysInv(s) && Rehearsed(s.store.main, op)
    requires s.store.main.phase == Intent(op) && StatusOf(s.world, op) == Done
    ensures Honest(s, Report(op))
  {
  }

  lemma FactsIfAnyKeep(m: Machine, f: Facts)
    requires SysInv(m.sys)
    requires m.flow == Live ==> Honest(m.sys, f)
    ensures SysInv(FactsIfAny(m, f).sys) && FactsIfAny(m, f).sys.world == m.sys.world
    ensures FactsIfAny(m, f).flow == Live ==> m.flow == Live && FactsIfAny(m, f).sys.store.main == Applied(m.sys.store.main, f)
  {
    if f == NO_FACTS { NothingApplied(m.sys.store.main); } else { FactsKeep(m, f); }
  }

  lemma NothingApplied(r: Record)
    ensures Applied(r, NO_FACTS) == r
  {
  }

  /** Once the report is written, the record may leave the intent. */
  lemma ReportSettles(s: Sys, s': Sys, op: Op)
    requires WorldMatches(s'.store.main, s'.world) && Rehearsed(s.store.main, op)
    requires s.store.main.phase == Intent(op) && StatusOf(s.world, op) == Done
    requires s'.world == s.world && s'.store.main == Applied(s.store.main, Report(op))
    ensures MayLeave(s', Outcome(op))
  {
    var r := s'.store.main;
    ReportMarks(s.store.main, op);
    OutcomeIsPlain(op);
    DoneSettles(r.watchlistWasSwitched, r.protectionStatus == ProtectionDone, s'.world, op);
  }

  lemma ReportMarks(r: Record, op: Op)
    requires Rehearsed(r, op)
    ensures var r' := Applied(r, Report(op));
            && r'.phase == r.phase
            && (op == ProtectionBackup ==> r'.protectionStatus == ProtectionDone)
            && (op == SwitchWatchlist || op == RollbackWatchlist ==> r'.watchlistWasSwitched)
  {
  }

  lemma OutcomeIsPlain(op: Op)
    requires op != CleanupDrop && op != ObserveMonitor
    ensures Outcome(op) != MONITOR_START_AUTHORIZED && Outcome(op) != MONITOR_WRITE_OBSERVED
  {
  }

  lemma FinishKeeps(m: Machine, op: Op)
    requires SysInv(m.sys)
    requires m.flow == Live ==>
               Rehearsed(m.sys.store.main, op) && m.sys.store.main.phase == Intent(op) && StatusOf(m.sys.world, op) == Done
    ensures SysInv(Finish(m, op).sys)
  {
    var m1 := if op == ProtectConfig then LeaseFacts(m, ProtectedResources(m.sys.store.main)) else m;
    var m2 := FactsIfAny(m1, Report(op));
    if op == ProtectConfig { FactsKeep(m, ProtectedResources(m.sys.store.main)); }
    if m1.flow == Live { ReportIsHonest(m1.sys, op); }
    FactsIfAnyKeep(m1, Report(op));
    if m2.flow == Live { ReportSettles(m1.sys, m2.sys, op); }
    AdvanceKeeps(m2, Outcome(op));
  }

  lemma NotYet(k: Phase, switched: bool, protection: bool, w: World, op: Op)
    requires EffectsAt(k, switched, protection, w) && k < Intent(op)
    requires op != CleanupDrop && op != ObserveMonitor
    ensures w.effects[op] == 0
  {
  }

  /** With the intent durable, a fresh step finds its operation still open. */
  lemma StepOpens(m: Machine, op: Op)
    requires SysInv(m.sys)
    requires m.flow == Live ==>
               && Rehearsed(m.sys.store.main, op) && op != RollbackStopMonitor
               && m.sys.store.main.phase < Intent(op) && MayLeave(m.sys, Intent(op))
    ensures var m1 := LeaseAdvance(m, Intent(op));
            && SysInv(m1.sys)
            && (m1.flow == Live ==> Rehearsed(m1.sys.store.main, op) && ReadyFor(m1.sys, op))
  {
    AdvanceKeeps(m, Intent(op));
    var m1 := LeaseAdvance(m, Intent(op));
    if m1.flow == Live {
      var r := m.sys.store.main;
      var sw, pr := r.watchlistWasSwitched, r.protectionStatus == ProtectionDone;
      assert m1.sys.store.main == r.(phase := Intent(op));
      NotYet(r.phase, sw, pr, m.sys.world, op);
      if Handle(m1.sys.world, op).Ok? { FreshIsOpen(sw, pr, m1.sys.world, op); }
    }
  }

  lemma ActAndFinishKeep(m: Machine, cfg: Config, op: Op, p: Phase)
    requires SysInv(m.sys)
    requires m.flow == Live ==> Rehearsed(m.sys.store.main, op) && ReadyFor(m.sys, op)
    ensures SysInv(ActAndFinish(m, cfg, op, p).sys)
  {
    PerformKeeps(m, op, cfg.failures);
    FinishKeeps(CrashPoint(Perform(m, op, cfg.failures), cfg, p, AfterAction), op);
  }

  lemma StepKeeps(m: Machine, cfg: Config, op: Op)
    requires SysInv(m.sys)
    requires m.flow == Live ==>
               && Rehearsed(m.sys.store.main, op) && op != RollbackStopMonitor
               && m.sys.store.main.phase < Intent(op) && MayLeave(m.sys, Intent(op))
    ensures SysInv(Step(m, cfg, op).sys)
  {
    StepOpens(m, op);
    ActAndFinishKeep(CrashPoint(LeaseAdvance(m, Intent(op)), cfg, Intent(op), AfterIntent), cfg, op, Intent(op));
  }

  lemma PendingIsReady(s: Sys, op: Op)
    requires SysInv(s) && Rehearsed(s.store.main, op) && s.store.main.phase == Intent(op)
    requires StatusOf(s.world, op) == Pending
    ensures ReadyFor(s, op)
  {
    StopMonitorIsDone(s, op);
    if Handle(s.world, op).Ok? {
      PendingIsOpen(s.store.main.watchlistWasSwitched, s.store.main.protectionStatus == ProtectionDone, s.world, op);
    }
  }

  lemma ResumeKeeps(m: Machine, cfg: Config, op: Op)
    requires SysInv(m.sys)
    requires m.flow == Live ==> Rehearsed(m.sys.store.main, op) && m.sys.store.main.phase == Intent(op)
    ensures SysInv(Resume(m, cfg, op).sys)
  {
    if m.flow == Live {
      match StatusOf(m.sys.world, op)
      case Unclear =>
      case Done => FinishKeeps(m, op);
      case Pending =>
        PendingIsReady(m.sys, op);
        ActAndFinishKeep(m, cfg, op, m.sys.store.main.phase);
    }
  }

  lemma StopMonitorIsDone(s: Sys, op: Op)
    requires SysInv(s) && s.store.main.phase == Intent(op) && StatusOf(s.world, op) == Pending
    ensures op != RollbackStopMonitor
  {
  }

  lemma SkipKeeps(m: Machine, cfg: Config)
    requires SysInv(m.sys)
    requires m.flow == Live ==> m.sys.store.main.phase == PLANNED
    ensures SysInv(SkipStep(m, cfg).sys)
  {
    FactsKeep(m, SkipFacts(m.sys.store.main));
    AdvanceKeeps(CrashPoint(LeaseFacts(m, SkipFacts(m.sys.store.main)), cfg, PROTECTION_BACKUP_SKIPPED, AfterFacts),
                 PROTECTION_BACKUP_SKIPPED);
  }

  lemma AfterEnvKeeps(m: Machine, cfg: Config)
    requires SysInv(m.sys)
    requires m.flow == Live ==> m.sys.store.main.phase == ENV_SWITCHED
    ensures SysInv(AfterEnvStep(m, cfg).sys)
  {
    FactsKeep(m, WatchlistFacts(m.sys.store.main));
    if cfg.watchlistSwitch { StepKeeps(LeaseFacts(m, WatchlistFacts(m.sys.store.main)), cfg, SwitchWatchlist); }
    AdvanceKeeps(m, CONFIG_SWITCHED);
  }

  lemma AuthorizeKeeps(m: Machine, cfg: Config)
    requires SysInv(m.sys)
    requires m.flow == Live ==> m.sys.store.main.phase == READINESS_PASSED
    ensures SysInv(AuthorizeStep(m, cfg).sys)
  {
    FactsKeep(m, AuthorizeFacts(m.sys.store.main));
    AdvanceKeeps(CrashPoint(LeaseFacts(m, AuthorizeFacts(m.sys.store.main)), cfg, MONITOR_START_AUTHORIZED, AfterFacts),
                 MONITOR_START_AUTHORIZED);
  }

  lemma ObservationKeeps(s: Sys)
    requires SysInv(s)
    ensures SysInv(s.(world := Handle(s.world, ObserveMonitor).value))
  {
  }

  lemma PerformObserveKeeps(m: Machine, failures: set<Op>)
    requires SysInv(m.sys)
    ensures var m1 := Perform(m, ObserveMonitor, failures);
            SysInv(m1.sys) && m1.sys.store == m.sys.store && (m1.flow == Live ==> m.flow == Live)
  {
    ObservationKeeps(m.sys);
    CommitKeeps(m, m.sys.(world := Handle(m.sys.world, ObserveMonitor).value));
  }

  lemma ObserveKeeps(m: Machine, cfg: Config)
    requires SysInv(m.sys)
    requires m.flow == Live ==> m.sys.store.main.phase == MONITOR_STARTED
    ensures SysInv(ObserveStep(m, cfg).sys)
  {
    var seen := m.sys.world.writeObserved;
    var m1 := Perform(m, ObserveMonitor, cfg.failures);
    PerformObserveKeeps(m, cfg.failures);
    var m2 := LeaseFacts(m1, ObserveFacts(seen));
    FactsKeep(m1, ObserveFacts(seen));
    if seen {
      AdvanceKeeps(m2, MONITOR_WRITE_OBSERVED);
      AdvanceKeeps(LeaseAdvance(m2, MONITOR_WRITE_OBSERVED), COMPLETED);
    } else {
      AdvanceKeeps(m2, COMPLETED);
    }
  }

  /** The loops choose only actions that fit the durable phase. */
  predicate Suits(s: Sys, a: Action) {
    var r := s.store.main;
    match a
    case Fresh(op) => Rehearsed(r, op) && op != RollbackStopMonitor && r.phase < Intent(op) && MayLeave(s, Intent(op))
    case Again(op) => Rehearsed(r, op) && r.phase == Intent(op)
    case SkipProtection => r.phase == PLANNED
    case AfterEnv => r.phase == ENV_SWITCHED
    case AuthorizeMonitor => r.phase == READINESS_PASSED
    case Observe => r.phase == MONITOR_STARTED
    case Plain(target) => MayLeave(s, target)
    case Stuck => true
  }

  lemma ForwardSuits(s: Sys, cfg: Config)
    requires RecordShape(s.store.main)
    ensures Suits(s, ForwardAction(s.store.main.phase, cfg))
  {
  }

  lemma RollbackSuits(s: Sys)
    requires RecordShape(s.store.main)
    ensures Suits(s, RollbackAction(s.store.main))
  {
  }

  lemma ActKeeps(m: Machine, cfg: Config, a: Action)
    requires SysInv(m.sys)
    requires m.flow == Live ==> Suits(m.sys, a)
    ensures SysInv(Act(m, cfg, a).sys)
  {
    match a
    case Fresh(op) => StepKeeps(m, cfg, op);
    case Again(op) => ResumeKeeps(m, cfg, op);
    case SkipProtection => SkipKeeps(m, cfg);
    case AfterEnv => AfterEnvKeeps(m, cfg);
    case AuthorizeMonitor => AuthorizeKeeps(m, cfg);
    case Observe => ObserveKeeps(m, cfg);
    case Plain(target) => AdvanceKeeps(m, target);
    case Stuck =>
  }

  // ---------------------------------------------------------------- calls

  lemma {:induction false} ForwardLoopKeeps(m: Machine, cfg: Config)
    requires SysInv(m.sys)
    ensures SysInv(ForwardLoop(m, cfg).sys)
    decreases if m.flow == Live then 43 - m.sys.store.main.phase else 0
  {
    if m.flow == Live && m.sys.store.main.phase != COMPLETED {
      ForwardSuits(m.sys, cfg);
      ActKeeps(m, cfg, ForwardAction(m.sys.store.main.phase, cfg));
      IterationClimbs(m, cfg);
      ForwardLoopKeeps(ForwardIteration(m, cfg), cfg);
    }
  }

  lemma {:induction false} RollbackLoopKeeps(m: Machine, cfg: Config)
    requires SysInv(m.sys)
    ensures SysInv(RollbackLoop(m, cfg).sys)
    decreases if m.flow == Live then 43 - m.sys.store.main.phase else 0
  {
    if m.flow == Live && m.sys.store.main.phase != ROLLED_BACK {
      var a := RollbackAction(m.sys.store.main);
      RollbackSuits(m.sys);
      ActKeeps(m, cfg, a);
      ActClimbs(m, cfg, a);
      RollbackLoopKeeps(Act(m, cfg, a), cfg);
    }
  }

  lemma RunHandlerKeeps(m: Machine)
    requires SysInv(m.sys)
    ensures SysInv(RunHandler(m).0)
  {
    if m.flow.Raised? {
      match m.flow.error
      case ActionFailed(a) => FactsKeep(m.(flow := Live), FailureFacts(m.sys.store.main, ActionCode(a)));
      case RecordFailed(code) => FactsKeep(m.(flow := Live), ManualFacts(code));
    }
  }

  lemma RollbackHandlerKeeps(m: Machine)
    requires SysInv(m.sys)
    ensures SysInv(RollbackHandler(m).0)
  {
    FactsKeep(m.(flow := Live), ManualFacts(ManualReconciliationRequired));
  }

  lemma RunKeeps(s: Sys, cfg: Config, life: Lifetime)
    requires SysInv(s)
    ensures SysInv(Run(s, cfg, life).0)
  {
    ForwardLoopKeeps(Machine(s, life, Live), cfg);
    RunHandlerKeeps(ForwardLoop(Machine(s, life, Live), cfg));
  }

  lemma RollbackKeeps(s: Sys, cfg: Config, life: Lifetime)
    requires SysInv(s)
    ensures SysInv(Rollback(s, cfg, life).0)
  {
    var m := Machine(s, life, Live);
    if MONITOR_START_STARTED <= s.store.main.phase <= COMPLETED {
      FactsKeep(m, NO_FACTS.(manual := Set(true), lastError := Set(Some(ManualReconciliationRequired))));
    } else {
      AdvanceKeeps(m, ROLLBACK_STARTED);
      RollbackLoopKeeps(EnterRollback(m, cfg), cfg);
      RollbackHandlerKeeps(RollbackLoop(EnterRollback(m, cfg), cfg));
    }
  }

  // ---------------------------------------------------------------- cleanup

  lemma CreateChildKeeps(s: Sys)
    requires SysInv(s) && CleanupEligible(s)
    requires CreateChild(s.store, ExpectedChild(s.store.main)).Ok?
    ensures SysInv(s.(store := CreateChild(s.store, ExpectedChild(s.store.main)).value))
  {
  }

  lemma PersistChildKeeps(m: Machine)
    requires SysInv(m.sys) && (m.flow == Live ==> CleanupEligible(m.sys))
    ensures var m' := Persist(m, CreateChild(m.sys.store, ExpectedChild(m.sys.store.main)));
            && SysInv(m'.sys) && m'.sys.world == m.sys.world
            && (m'.flow == Live ==> m.flow == Live && CleanupEligible(m'.sys) && m'.sys.store.child.Some?)
  {
    var c := CreateChild(m.sys.store, ExpectedChild(m.sys.store.main));
    if m.flow == Live && c.Ok? { CreateChildKeeps(m.sys); }
    PersistKeeps(m, c);
  }

  lemma RequestFactsKeep(m: Machine)
    requires SysInv(m.sys) && (m.flow == Live ==> CleanupEligible(m.sys))
    ensures var m' := LeaseFacts(m, RequestFacts(m.sys.store.main));
            && SysInv(m'.sys) && m'.sys.world == m.sys.world
            && (m'.flow == Live ==> m.flow == Live && CleanupEligible(m'.sys))
  {
    FactsKeep(m, RequestFacts(m.sys.store.main));
  }

  lemma RequestKeeps(m: Machine)
    requires SysInv(m.sys)
    ensures var m' := Request(m);
            && SysInv(m'.sys) && m'.sys.world == m.sys.world
            && (m'.flow == Live ==> m.flow == Live && CleanupEligible(m'.sys) && m'.sys.store.child.Some?)
  {
    if m.flow == Live && CleanupEligible(m.sys) {
      RequestFactsKeep(m);
      PersistChildKeeps(if !m.sys.store.main.cleanupRequested then LeaseFacts(m, RequestFacts(m.sys.store.main)) else m);
    }
  }

  lemma ChildStepKeeps(s: Sys, target: CleanupPhase)
    requires SysInv(s) && CleanupEligible(s) && AdvanceStoredChild(s.store, target).Ok?
    ensures SysInv(s.(store := AdvanceStoredChild(s.store, target).value))
  {
  }

  lemma StartChildKeeps(m: Machine)
    requires SysInv(m.sys)
    requires m.flow == Live ==> CleanupEligible(m.sys) && m.sys.store.child.Some?
    ensures var m' := StartChild(m);
            && SysInv(m'.sys) && m'.sys.world == m.sys.world && m'.sys.store.main == m.sys.store.main
            && (m'.flow == Live ==> m.flow == Live && m'.sys.store.child.Some?)
  {
    if m.flow == Live && AdvanceStoredChild(m.sys.store, CleanupStarted).Ok? { ChildStepKeeps(m.sys, CleanupStarted); }
    PersistKeeps(m, AdvanceStoredChild(m.sys.store, CleanupStarted));
  }

  lemma DropKeeps(s: Sys)
    requires SysInv(s) && CleanupEligible(s) && s.world.created
    requires s.store.child.Some? && s.store.child.value.phase == CleanupStarted
    ensures SysInv(s.(world := Handle(s.world, CleanupDrop).value))
    ensures !Handle(s.world, CleanupDrop).value.created
  {
  }

  lemma DropFactKeeps(s: Sys)
    requires SysInv(s) && CleanupEligible(s) && !s.world.created
    requires UpdateChildFacts(s.store, Set(true), Keep).Ok?
    ensures SysInv(s.(store := UpdateChildFacts(s.store, Set(true), Keep).value))
  {
  }

  lemma DropMachineKeeps(m: Machine)
    requires SysInv(m.sys) && m.sys.store.child.Some? && m.sys.store.child.value.phase == CleanupStarted
    requires m.flow == Live && CleanupEligible(m.sys) && m.sys.world.created
    ensures var m' := Drop(m);
            && SysInv(m'.sys) && m'.sys.store == m.sys.store
            && (m'.flow == Live ==> CleanupEligible(m'.sys) && !m'.sys.world.created)
  {
    DropKeeps(m.sys);
    CommitKeeps(m, m.sys.(world := Handle(m.sys.world, CleanupDrop).value));
  }

  lemma DropFactMachineKeeps(m: Machine)
    requires SysInv(m.sys)
    requires m.flow == Live ==> CleanupEligible(m.sys) && !m.sys.world.created
    ensures var m' := Persist(m, UpdateChildFacts(m.sys.store, Set(true), Keep));
            && SysInv(m'.sys) && m'.sys.store.main == m.sys.store.main && m'.sys.world == m.sys.world
            && (m'.flow == Live ==> m.flow == Live && m'.sys.store.child.Some?)
  {
    var u := UpdateChildFacts(m.sys.store, Set(true), Keep);
    if m.flow == Live && u.Ok? { DropFactKeeps(m.sys); }
    PersistKeeps(m, u);
  }

  lemma DropOnceKeeps(m: Machine)
    requires SysInv(m.sys)
    requires m.flow == Live ==> CleanupEligible(m.sys) && m.sys.store.child.Some?
    ensures var m' := DropOnce(m);
            && SysInv(m'.sys) && m'.sys.store.main == m.sys.store.main
            && (m'.flow == Live ==> m.flow == Live && CleanupEligible(m'.sys) && m'.sys.store.child.Some?)
  {
    if m.flow == Live && ChildPhase(m) == CleanupStarted && !m.sys.store.child.value.dropObserved {
      if m.sys.world.created { DropMachineKeeps(m); }
      DropFactMachineKeeps(if m.sys.world.created then Drop(m) else m);
    }
  }

  lemma CompleteChildKeeps(m: Machine)
    requires SysInv(m.sys)
    requires m.flow == Live ==> CleanupEligible(m.sys) && m.sys.store.child.Some?
    ensures SysInv(CompleteChild(m).sys) && (CompleteChild(m).flow == Live ==> m.flow == Live)
  {
    if m.flow == Live && AdvanceStoredChild(m.sys.store, CleanupCompleted).Ok? { ChildStepKeeps(m.sys, CleanupCompleted); }
    PersistKeeps(m, AdvanceStoredChild(m.sys.store, CleanupCompleted));
  }

  lemma ExecuteKeeps(m: Machine)
    requires SysInv(m.sys)
    ensures SysInv(Execute(m).sys)
  {
    RequestKeeps(m);
    StartChildKeeps(Request(m));
    DropOnceKeeps(StartChild(Request(m)));
    CompleteChildKeeps(DropOnce(StartChild(Request(m))));
    FactsKeep(CompleteChild(DropOnce(StartChild(Request(m)))), NO_FACTS.(cleanupCompleted := Set(true)));
  }

  // ---------------------------------------------------------------- whole runs

  lemma DoKeeps(s: Sys, c: Call)
    requires SysInv(s)
    ensures SysInv(Do(s, c))
  {
    match c
    case CallRun(cfg, life) => RunKeeps(s, cfg, life);
    case CallRollback(cfg, life) => RollbackKeeps(s, cfg, life);
    case CallRequest(life) => RequestKeeps(Machine(s, life, Live));
    case CallCleanup(life) => ExecuteKeeps(Machine(s, life, Live));
    case MonitorWrites =>
  }

  /** Every state reached by any sequence of calls, each cut anywhere, satisfies the invariant. */
  lemma {:induction false} DoAllKeeps(s: Sys, calls: seq<Call>)
    requires SysInv(s)
    ensures SysInv(DoAll(s, calls))
    decreases |calls|
  {
    if calls != [] {
      DoKeeps(s, calls[0]);
      DoAllKeeps(Do(s, calls[0]), calls[1..]);
    }
  }
}
