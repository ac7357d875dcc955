/**
 Rollback convergence: exactly when an uninterrupted rollback ends in ROLLED_BACK, and
 exactly when it leaves the original watchlist behind.
 */
module RecoveryRollback {
  import opened Wrappers
  import opened RecoveryModels
  import opened RecoveryRecord
  import opened RecoveryWorld
  import opened RecoveryProtocol
  import opened RecoverySafety
  import opened RecoveryTheorems
  import opened RecoveryConvergence
  import opened RecoveryForward

  /** Inside the rollback branch with nothing failing. */
  predicate Returning(m: Machine, cfg: Config) {
    SysInv(m.sys) && m.flow == Live && cfg.failures == {} && m.sys.store.main.phase >= ROLLBACK_STARTED
  }

  lemma RollbackFollows(r: Record, op: Op)
    requires RollbackAction(r) == Fresh(op)
    ensures CanFollow(r.phase, Intent(op)) && Intent(op) != ROLLBACK_STARTED && op != CleanupDrop && op != ObserveMonitor
    ensures op != ProtectionBackup && op != Verify && r.phase != ENV_SWITCHED
    ensures r.phase == ROLLBACK_ENV_COMPLETED ==> op == if r.watchlistWasSwitched then RollbackWatchlist else StartOriginal
  {
  }

  lemma FreshRollbackGoes(m: Machine, cfg: Config, op: Op)
    requires Returning(m, cfg) && RollbackAction(m.sys.store.main) == Fresh(op)
    ensures Smooth(m, Step(m, cfg, op), cfg.crash.None?)
  {
    RollbackSuits(m.sys);
    RollbackFollows(m.sys.store.main, op);
    IntentAccepted(m.sys, op);
    assert Startable(m, op);
    StepSmooth(m, cfg, op);
  }

  lemma AgainRollbackGoes(m: Machine, cfg: Config, op: Op)
    requires Returning(m, cfg) && RollbackAction(m.sys.store.main) == Again(op)
    ensures Smooth(m, Resume(m, cfg, op), cfg.crash.None?)
  {
    RollbackSuits(m.sys);
    ResumeSmooth(m, cfg, op);
  }

  lemma LastRollbackGoes(m: Machine, cfg: Config)
    requires Returning(m, cfg) && m.sys.store.main.phase == ROLLBACK_READINESS_PASSED
    ensures Smooth(m, LeaseAdvance(m, ROLLED_BACK), cfg.crash.None?)
  {
  }

  lemma RollbackActGoes(m: Machine, cfg: Config)
    requires Returning(m, cfg) && m.sys.store.main.phase < ROLLED_BACK
    ensures var m' := Act(m, cfg, RollbackAction(m.sys.store.main));
            && Smooth(m, m', cfg.crash.None?)
            && (m'.flow == Live ==> Returning(m', cfg))
  {
    var a := RollbackAction(m.sys.store.main);
    RollbackSuits(m.sys);
    ActKeeps(m, cfg, a);
    ActClimbs(m, cfg, a);
    match a
    case Fresh(op) => FreshRollbackGoes(m, cfg, op);
    case Again(op) => AgainRollbackGoes(m, cfg, op);
    case _ => LastRollbackGoes(m, cfg);
  }

  lemma {:induction false} RollbackLoopGoes(m: Machine, cfg: Config)
    requires Returning(m, cfg)
    ensures var m' := RollbackLoop(m, cfg);
            && !m'.flow.Raised?
            && (m.life == Immortal && cfg.crash.None? ==> m'.flow == Live)
            && (m'.flow == Live ==> m'.sys.store.main.phase == ROLLED_BACK)
    decreases 43 - m.sys.store.main.phase
  {
    if m.sys.store.main.phase != ROLLED_BACK {
      var a := RollbackAction(m.sys.store.main);
      var m1 := Act(m, cfg, a);
      RollbackActGoes(m, cfg);
      ActClimbs(m, cfg, a);
      if m1.flow == Live { RollbackLoopGoes(m1, cfg); } else { assert RollbackLoop(m, cfg) == m1; }
    }
  }

  /**
   The entry phases from which the advance does accept a rollback. ENV_SWITCHED is listed as
   an entry phase, but the guard that fixes its successor refuses every other target.
   */
  predicate EntersRollback(p: Phase) {
    RollbackEntry(p) && p != ENV_SWITCHED
  }

  lemma EntryAccepted(s: Store)
    requires ValidRecord(s.main)
    ensures Advance(s, ROLLBACK_STARTED).Ok? <==> EntersRollback(s.main.phase)
    ensures Advance(s, ROLLBACK_STARTED).Err? ==> Advance(s, ROLLBACK_STARTED).error == PhaseInvalid
  {
  }

  lemma EntryGoes(m: Machine, cfg: Config)
    requires SysInv(m.sys) && m.flow == Live && cfg.failures == {} && EntersRollback(m.sys.store.main.phase)
    ensures var m' := EnterRollback(m, cfg);
            && Smooth(m, m', cfg.crash.None?)
            && (m'.flow == Live ==> Returning(m', cfg))
  {
    EntryAccepted(m.sys.store);
    AdvanceSmooth(m, ROLLBACK_STARTED);
    AdvanceKeeps(m, ROLLBACK_STARTED);
  }

  lemma EntryRefused(m: Machine, cfg: Config)
    requires ValidRecord(m.sys.store.main) && m.flow == Live && !EntersRollback(m.sys.store.main.phase)
    requires !(ROLLBACK_STARTED <= m.sys.store.main.phase <= ROLLBACK_READINESS_PASSED)
    ensures EnterRollback(m, cfg).flow == Raised(RecordFailed(PhaseInvalid)) && EnterRollback(m, cfg).sys == m.sys
  {
  }

  lemma RefusedRollback(s: Sys, cfg: Config, life: Lifetime)
    requires ValidRecord(s.store.main)
    requires !EntersRollback(s.store.main.phase) && !(ROLLBACK_STARTED <= s.store.main.phase <= ROLLBACK_READINESS_PASSED)
    ensures Rollback(s, cfg, life).0.store.main.phase == s.store.main.phase && Rollback(s, cfg, life).1 != Pass
    ensures Rollback(s, cfg, life).0.store.main.firstWrite == s.store.main.firstWrite
  {
    var m := Machine(s, life, Live);
    if MONITOR_START_STARTED <= s.store.main.phase <= COMPLETED {
      FactsTrace(m, NO_FACTS.(manual := Set(true), lastError := Set(Some(ManualReconciliationRequired))));
    } else {
      EntryRefused(m, cfg);
      assert RollbackLoop(EnterRollback(m, cfg), cfg) == EnterRollback(m, cfg);
    }
  }

  /**
   An uninterrupted rollback without a failing operation ends in ROLLED_BACK exactly from
   the phases that enter it and from inside the branch; from ROLLED_BACK itself it is refused.
   */
  lemma RollbackConverges(s: Sys, cfg: Config)
    requires SysInv(s) && cfg.failures == {} && cfg.crash.None?
    ensures var (t, verdict) := Rollback(s, cfg, Immortal);
            && (t.store.main.phase == ROLLED_BACK <==> EntersRollback(s.store.main.phase) || s.store.main.phase >= ROLLBACK_STARTED)
            && (verdict == Pass <==> t.store.main.phase == ROLLED_BACK && s.store.main.phase != ROLLED_BACK)
  {
    var m := Machine(s, Immortal, Live);
    if EntersRollback(s.store.main.phase) || ROLLBACK_STARTED <= s.store.main.phase <= ROLLBACK_READINESS_PASSED {
      if EntersRollback(s.store.main.phase) { EntryGoes(m, cfg); }
      RollbackLoopGoes(EnterRollback(m, cfg), cfg);
    } else {
      RefusedRollback(s, cfg, Immortal);
    }
  }

  // ---------------------------------------------------------------- the watchlist a rollback leaves behind

  /** What decides about the watchlist: the recorded fact, and the switch itself. */
  predicate SameWatchlist(a: Sys, b: Sys) {
    && a.store.main.watchlistWasSwitched == b.store.main.watchlistWasSwitched
    && a.world.effects[SwitchWatchlist] == b.world.effects[SwitchWatchlist]
  }

  lemma FactsSpareWatchlist(m: Machine, f: Facts)
    requires f.watchlistWasSwitched.Keep?
    ensures SameWatchlist(m.sys, LeaseFacts(m, f).sys)
  {
  }

  lemma AdvanceSparesWatchlist(m: Machine, target: Phase)
    ensures SameWatchlist(m.sys, LeaseAdvance(m, target).sys)
  {
  }

  lemma FinishSparesWatchlist(m: Machine, op: Op)
    requires op != SwitchWatchlist
    ensures SameWatchlist(m.sys, Finish(m, op).sys)
  {
    var m1 := if op == ProtectConfig then LeaseFacts(m, ProtectedResources(m.sys.store.main)) else m;
    FactsSpareWatchlist(m, ProtectedResources(m.sys.store.main));
    assert Report(op).watchlistWasSwitched.Keep?;
    FactsSpareWatchlist(m1, Report(op));
    AdvanceSparesWatchlist(FactsIfAny(m1, Report(op)), Outcome(op));
  }

  lemma HandleSparesWatchlist(w: World, op: Op)
    requires op != SwitchWatchlist && Handle(w, op).Ok?
    ensures Handle(w, op).value.effects[SwitchWatchlist] == w.effects[SwitchWatchlist]
  {
  }

  lemma PerformSparesWatchlist(m: Machine, op: Op, failures: set<Op>)
    requires op != SwitchWatchlist
    ensures SameWatchlist(m.sys, Perform(m, op, failures).sys)
  {
    if Handle(m.sys.world, op).Ok? { HandleSparesWatchlist(m.sys.world, op); }
  }

  lemma ActAndFinishSparesWatchlist(m: Machine, cfg: Config, op: Op, p: Phase)
    requires op != SwitchWatchlist
    ensures SameWatchlist(m.sys, ActAndFinish(m, cfg, op, p).sys)
  {
    PerformSparesWatchlist(m, op, cfg.failures);
    FinishSparesWatchlist(CrashPoint(Perform(m, op, cfg.failures), cfg, p, AfterAction), op);
  }

  lemma StepSparesWatchlist(m: Machine, cfg: Config, op: Op)
    requires op != SwitchWatchlist
    ensures SameWatchlist(m.sys, Step(m, cfg, op).sys)
  {
    AdvanceSparesWatchlist(m, Intent(op));
    ActAndFinishSparesWatchlist(CrashPoint(LeaseAdvance(m, Intent(op)), cfg, Intent(op), AfterIntent), cfg, op, Intent(op));
  }

  lemma ResumeSparesWatchlist(m: Machine, cfg: Config, op: Op)
    requires op != SwitchWatchlist
    ensures SameWatchlist(m.sys, Resume(m, cfg, op).sys)
  {
    FinishSparesWatchlist(m, op);
    ActAndFinishSparesWatchlist(m, cfg, op, m.sys.store.main.phase);
  }

  /** The actions a rollback takes never switch the watchlist. */
  predicate SparesWatchlist(a: Action) {
    a.Plain? || a.Stuck? || ((a.Fresh? || a.Again?) && a.op != SwitchWatchlist)
  }

  lemma RollbackActionSparesWatchlist(r: Record)
    ensures SparesWatchlist(RollbackAction(r))
  {
  }

  lemma ActSparesWatchlist(m: Machine, cfg: Config, a: Action)
    requires SparesWatchlist(a)
    ensures SameWatchlist(m.sys, Act(m, cfg, a).sys)
  {
    match a
    case Fresh(op) => StepSparesWatchlist(m, cfg, op);
    case Again(op) => ResumeSparesWatchlist(m, cfg, op);
    case Plain(target) => AdvanceSparesWatchlist(m, target);
    case _ =>
  }

  lemma {:induction false} RollbackLoopSparesWatchlist(m: Machine, cfg: Config)
    ensures SameWatchlist(m.sys, RollbackLoop(m, cfg).sys)
    decreases if m.flow == Live then 43 - m.sys.store.main.phase else 0
  {
    if m.flow == Live && m.sys.store.main.phase != ROLLED_BACK {
      RollbackActionSparesWatchlist(m.sys.store.main);
      ActSparesWatchlist(m, cfg, RollbackAction(m.sys.store.main));
      ActClimbs(m, cfg, RollbackAction(m.sys.store.main));
      RollbackLoopSparesWatchlist(Act(m, cfg, RollbackAction(m.sys.store.main)), cfg);
    }
  }

  lemma HandlerSparesWatchlist(m: Machine)
    ensures SameWatchlist(m.sys, RollbackHandler(m).0)
  {
  }

  lemma RollbackSparesWatchlist(s: Sys, cfg: Config, life: Lifetime)
    ensures SameWatchlist(s, Rollback(s, cfg, life).0)
  {
    var m := Machine(s, life, Live);
    if MONITOR_START_STARTED <= s.store.main.phase <= COMPLETED {
      FactsSpareWatchlist(m, NO_FACTS.(manual := Set(true), lastError := Set(Some(ManualReconciliationRequired))));
    } else {
      var m1 := EnterRollback(m, cfg);
      var m2 := RollbackLoop(m1, cfg);
      assert SameWatchlist(s, m1.sys) by { AdvanceSparesWatchlist(m, ROLLBACK_STARTED); }
      RollbackLoopSparesWatchlist(m1, cfg);
      HandlerSparesWatchlist(m2);
    }
  }

  /**
   A rollback that ends in ROLLED_BACK leaves the original watchlist exactly when it was in
   place before, or its switch had been recorded; a switch that took effect without being
   recorded stays.
   */
  lemma RollbackRestoresWatchlist(s: Sys, cfg: Config, life: Lifetime)
    requires SysInv(s) && s.store.main.phase < ROLLBACK_STARTED
    requires Rollback(s, cfg, life).0.store.main.phase == ROLLED_BACK
    ensures Rollback(s, cfg, life).0.world.watchlist == Original
            <==> s.store.main.watchlistWasSwitched || s.world.watchlist == Original
  {
    RollbackKeeps(s, cfg, life);
    RollbackSparesWatchlist(s, cfg, life);
    WatchlistByFacts(s);
    WatchlistByFacts(Rollback(s, cfg, life).0);
  }

  lemma WatchlistByFacts(s: Sys)
    requires SysInv(s)
    ensures s.store.main.phase < ROLLBACK_STARTED ==> (s.world.watchlist == Staged <==> s.world.effects[SwitchWatchlist] == 1)
    ensures s.store.main.phase == ROLLED_BACK ==>
              (s.world.watchlist == Original <==> s.store.main.watchlistWasSwitched || s.world.effects[SwitchWatchlist] == 0)
    ensures s.world.watchlist == Original || s.world.watchlist == Staged
    ensures s.world.effects[SwitchWatchlist] <= 1
  {
  }

  /** The same of every state that any history of calls leaves of a planned incident. */
  lemma ReachableRollbackConverges(s: Sys, calls: seq<Call>, cfg: Config)
    requires FreshSys(s) && cfg.failures == {} && cfg.crash.None?
    ensures var before := DoAll(s, calls);
            var (t, verdict) := Rollback(before, cfg, Immortal);
            && (t.store.main.phase == ROLLED_BACK
                <==> EntersRollback(before.store.main.phase) || before.store.main.phase >= ROLLBACK_STARTED)
            && (t.store.main.phase == ROLLED_BACK ==>
                  t.world.env == Original && t.world.app == OnOriginal && t.world.ready && !t.world.monitorRunning)
  {
    Reachable(s, calls);
    RollbackConverges(DoAll(s, calls), cfg);
    RollbackKeeps(DoAll(s, calls), cfg, Immortal);
    var t := Rollback(DoAll(s, calls), cfg, Immortal).0;
    if t.store.main.phase == ROLLED_BACK { RolledBackState(t); }
  }

  lemma RolledBackState(t: Sys)
    requires SysInv(t) && t.store.main.phase == ROLLED_BACK
    ensures t.world.env == Original && t.world.app == OnOriginal && t.world.ready && !t.world.monitorRunning
  {
  }
}
