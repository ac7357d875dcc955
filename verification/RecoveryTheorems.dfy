/**
 What holds of the rehearsal protocol in every state reachable from a planned
 incident by any sequence of run, rollback, cleanup request and cleanup calls, each
 of them cut at any durable effect.
 */
module RecoveryTheorems {
  import opened Wrappers
  import opened RecoveryModels
  import opened RecoveryRecord
  import opened RecoveryWorld
  import opened RecoveryProtocol
  import opened RecoverySafety

  // ---------------------------------------------------------------- the record only evolves

  lemma PersistEvolves(m: Machine, r: Result<Store, ErrorCode>)
    requires r.Ok? ==> Evolves(m.sys.store.main, r.value.main)
    ensures Evolves(m.sys.store.main, Persist(m, r).sys.store.main)
  {
  }

  lemma LeaseAdvanceEvolves(m: Machine, target: Phase)
    ensures Evolves(m.sys.store.main, LeaseAdvance(m, target).sys.store.main)
  {
    if Advance(m.sys.store, target).Ok? { AdvanceEvolves(m.sys.store.main, target); }
    PersistEvolves(m, Advance(m.sys.store, target));
  }

  lemma LeaseFactsEvolves(m: Machine, f: Facts)
    ensures Evolves(m.sys.store.main, LeaseFacts(m, f).sys.store.main)
  {
    if UpdateFacts(m.sys.store, f).Ok? { UpdateEvolves(m.sys.store, f); }
    PersistEvolves(m, UpdateFacts(m.sys.store, f));
  }

  lemma ReportEvolves(m: Machine, op: Op)
    ensures Evolves(m.sys.store.main, FactsIfAny(m, Report(op)).sys.store.main)
  {
    LeaseFactsEvolves(m, Report(op));
  }

  lemma FinishEvolves(m: Machine, op: Op)
    ensures Evolves(m.sys.store.main, Finish(m, op).sys.store.main)
  {
    var m1 := if op == ProtectConfig then LeaseFacts(m, ProtectedResources(m.sys.store.main)) else m;
    var m2 := FactsIfAny(m1, Report(op));
    var a, c := m.sys.store.main, m2.sys.store.main;
    assert Evolves(a, c) by {
      LeaseFactsEvolves(m, ProtectedResources(m.sys.store.main));
      ReportEvolves(m1, op);
      EvolvesTransitive(a, m1.sys.store.main, c);
    }
    LeaseAdvanceEvolves(m2, Outcome(op));
    EvolvesTransitive(a, c, LeaseAdvance(m2, Outcome(op)).sys.store.main);
  }

  lemma ActAndFinishEvolves(m: Machine, cfg: Config, op: Op, p: Phase)
    ensures Evolves(m.sys.store.main, ActAndFinish(m, cfg, op, p).sys.store.main)
  {
    PerformStays(m, op, cfg.failures);
    FinishEvolves(CrashPoint(Perform(m, op, cfg.failures), cfg, p, AfterAction), op);
  }

  lemma StepEvolves(m: Machine, cfg: Config, op: Op)
    ensures Evolves(m.sys.store.main, Step(m, cfg, op).sys.store.main)
  {
    var m1 := CrashPoint(LeaseAdvance(m, Intent(op)), cfg, Intent(op), AfterIntent);
    LeaseAdvanceEvolves(m, Intent(op));
    ActAndFinishEvolves(m1, cfg, op, Intent(op));
    EvolvesTransitive(m.sys.store.main, m1.sys.store.main, Step(m, cfg, op).sys.store.main);
  }

  lemma ResumeEvolves(m: Machine, cfg: Config, op: Op)
    ensures Evolves(m.sys.store.main, Resume(m, cfg, op).sys.store.main)
  {
    FinishEvolves(m, op);
    ActAndFinishEvolves(m, cfg, op, m.sys.store.main.phase);
  }

  lemma FactsThenAdvanceEvolves(m: Machine, f: Facts, cfg: Config, target: Phase)
    ensures Evolves(m.sys.store.main,
                    LeaseAdvance(CrashPoint(LeaseFacts(m, f), cfg, target, AfterFacts), target).sys.store.main)
  {
    var m1 := CrashPoint(LeaseFacts(m, f), cfg, target, AfterFacts);
    LeaseFactsEvolves(m, f);
    LeaseAdvanceEvolves(m1, target);
    EvolvesTransitive(m.sys.store.main, m1.sys.store.main, LeaseAdvance(m1, target).sys.store.main);
  }

  lemma AfterEnvEvolves(m: Machine, cfg: Config)
    ensures Evolves(m.sys.store.main, AfterEnvStep(m, cfg).sys.store.main)
  {
    var m1 := LeaseFacts(m, WatchlistFacts(m.sys.store.main));
    LeaseFactsEvolves(m, WatchlistFacts(m.sys.store.main));
    StepEvolves(m1, cfg, SwitchWatchlist);
    EvolvesTransitive(m.sys.store.main, m1.sys.store.main, Step(m1, cfg, SwitchWatchlist).sys.store.main);
    LeaseAdvanceEvolves(m, CONFIG_SWITCHED);
  }

  lemma ObserveEvolves(m: Machine, cfg: Config)
    ensures Evolves(m.sys.store.main, ObserveStep(m, cfg).sys.store.main)
  {
    var seen := m.sys.world.writeObserved;
    var m1 := Perform(m, ObserveMonitor, cfg.failures);
    var m2 := LeaseFacts(m1, ObserveFacts(seen));
    var m3 := if seen then LeaseAdvance(m2, MONITOR_WRITE_OBSERVED) else m2;
    var a, c, d, e := m.sys.store.main, m2.sys.store.main, m3.sys.store.main, LeaseAdvance(m3, COMPLETED).sys.store.main;
    PerformStays(m, ObserveMonitor, cfg.failures);
    LeaseFactsEvolves(m1, ObserveFacts(seen));
    LeaseAdvanceEvolves(m2, MONITOR_WRITE_OBSERVED);
    LeaseAdvanceEvolves(m3, COMPLETED);
    EvolvesTransitive(a, c, d);
    EvolvesTransitive(a, d, e);
  }

  lemma ActEvolves(m: Machine, cfg: Config, a: Action)
    ensures Evolves(m.sys.store.main, Act(m, cfg, a).sys.store.main)
  {
    match a
    case Fresh(op) => StepEvolves(m, cfg, op);
    case Again(op) => ResumeEvolves(m, cfg, op);
    case SkipProtection => FactsThenAdvanceEvolves(m, SkipFacts(m.sys.store.main), cfg, PROTECTION_BACKUP_SKIPPED);
    case AfterEnv => AfterEnvEvolves(m, cfg);
    case AuthorizeMonitor => FactsThenAdvanceEvolves(m, AuthorizeFacts(m.sys.store.main), cfg, MONITOR_START_AUTHORIZED);
    case Observe => ObserveEvolves(m, cfg);
    case Plain(target) => LeaseAdvanceEvolves(m, target);
    case Stuck =>
  }

  lemma {:induction false} ForwardLoopEvolves(m: Machine, cfg: Config)
    ensures Evolves(m.sys.store.main, ForwardLoop(m, cfg).sys.store.main)
    decreases if m.flow == Live then 43 - m.sys.store.main.phase else 0
  {
    if m.flow == Live && m.sys.store.main.phase != COMPLETED {
      var m1 := ForwardIteration(m, cfg);
      ActEvolves(m, cfg, ForwardAction(m.sys.store.main.phase, cfg));
      IterationClimbs(m, cfg);
      ForwardLoopEvolves(m1, cfg);
      EvolvesTransitive(m.sys.store.main, m1.sys.store.main, ForwardLoop(m1, cfg).sys.store.main);
    }
  }

  lemma {:induction false} RollbackLoopEvolves(m: Machine, cfg: Config)
    ensures Evolves(m.sys.store.main, RollbackLoop(m, cfg).sys.store.main)
    decreases if m.flow == Live then 43 - m.sys.store.main.phase else 0
  {
    if m.flow == Live && m.sys.store.main.phase != ROLLED_BACK {
      var a := RollbackAction(m.sys.store.main);
      ActEvolves(m, cfg, a);
      ActClimbs(m, cfg, a);
      RollbackLoopEvolves(Act(m, cfg, a), cfg);
      EvolvesTransitive(m.sys.store.main, Act(m, cfg, a).sys.store.main, RollbackLoop(Act(m, cfg, a), cfg).sys.store.main);
    }
  }

  lemma RunHandlerEvolves(m: Machine)
    ensures Evolves(m.sys.store.main, RunHandler(m).0.store.main)
  {
    if m.flow.Raised? {
      match m.flow.error
      case ActionFailed(a) => LeaseFactsEvolves(m.(flow := Live), FailureFacts(m.sys.store.main, ActionCode(a)));
      case RecordFailed(code) => LeaseFactsEvolves(m.(flow := Live), ManualFacts(code));
    }
  }

  lemma RunEvolves(s: Sys, cfg: Config, life: Lifetime)
    ensures Evolves(s.store.main, Run(s, cfg, life).0.store.main)
  {
    var m := ForwardLoop(Machine(s, life, Live), cfg);
    ForwardLoopEvolves(Machine(s, life, Live), cfg);
    RunHandlerEvolves(m);
    EvolvesTransitive(s.store.main, m.sys.store.main, RunHandler(m).0.store.main);
  }

  lemma RollbackHandlerEvolves(m: Machine)
    ensures Evolves(m.sys.store.main, RollbackHandler(m).0.store.main)
  {
    LeaseFactsEvolves(m.(flow := Live), ManualFacts(ManualReconciliationRequired));
  }

  lemma RollbackEvolves(s: Sys, cfg: Config, life: Lifetime)
    ensures Evolves(s.store.main, Rollback(s, cfg, life).0.store.main)
  {
    var m := Machine(s, life, Live);
    if MONITOR_START_STARTED <= s.store.main.phase <= COMPLETED {
      LeaseFactsEvolves(m, NO_FACTS.(manual := Set(true), lastError := Set(Some(ManualReconciliationRequired))));
    } else {
      var m1 := EnterRollback(m, cfg);
      var m2 := RollbackLoop(m1, cfg);
      assert Evolves(s.store.main, m1.sys.store.main) by { LeaseAdvanceEvolves(m, ROLLBACK_STARTED); }
      RollbackLoopEvolves(m1, cfg);
      EvolvesTransitive(s.store.main, m1.sys.store.main, m2.sys.store.main);
      RollbackHandlerEvolves(m2);
      EvolvesTransitive(s.store.main, m2.sys.store.main, RollbackHandler(m2).0.store.main);
    }
  }

  lemma RequestEvolves(m: Machine)
    ensures Evolves(m.sys.store.main, Request(m).sys.store.main)
  {
    if m.flow == Live && CleanupEligible(m.sys) {
      var m1 := if !m.sys.store.main.cleanupRequested then LeaseFacts(m, RequestFacts(m.sys.store.main)) else m;
      LeaseFactsEvolves(m, RequestFacts(m.sys.store.main));
      CreateSparesMain(m1);
      assert Request(m).sys.store.main == m1.sys.store.main;
    }
  }

  lemma CreateSparesMain(m: Machine)
    ensures Persist(m, CreateChild(m.sys.store, ExpectedChild(m.sys.store.main))).sys.store.main == m.sys.store.main
  {
  }

  lemma ChildStepsSpareMain(m: Machine)
    ensures CompleteChild(DropOnce(StartChild(m))).sys.store.main == m.sys.store.main
  {
  }

  lemma ExecuteEvolves(m: Machine)
    ensures Evolves(m.sys.store.main, Execute(m).sys.store.main)
  {
    var m1 := Request(m);
    var m2 := CompleteChild(DropOnce(StartChild(m1)));
    RequestEvolves(m);
    ChildStepsSpareMain(m1);
    LeaseFactsEvolves(m2, NO_FACTS.(cleanupCompleted := Set(true)));
    EvolvesTransitive(m.sys.store.main, m1.sys.store.main, CompleteCleanup(m2).sys.store.main);
  }

  lemma {:induction false} DoAllEvolves(s: Sys, calls: seq<Call>)
    ensures Evolves(s.store.main, DoAll(s, calls).store.main)
    decreases |calls|
  {
    if calls != [] {
      match calls[0] {
        case CallRun(cfg, life) => RunEvolves(s, cfg, life);
        case CallRollback(cfg, life) => RollbackEvolves(s, cfg, life);
        case CallRequest(life) => RequestEvolves(Machine(s, life, Live));
        case CallCleanup(life) => ExecuteEvolves(Machine(s, life, Live));
        case MonitorWrites =>
      }
      DoAllEvolves(Do(s, calls[0]), calls[1..]);
      EvolvesTransitive(s.store.main, Do(s, calls[0]).store.main, DoAll(s, calls).store.main);
    }
  }

  // ---------------------------------------------------------------- safety of every reachable state

  lemma Reachable(s: Sys, calls: seq<Call>)
    requires FreshSys(s)
    ensures SysInv(DoAll(s, calls))
  {
    FreshSatisfies(s);
    DoAllKeeps(s, calls);
  }

  /** A staged env is backed by a verified replacement and intact protected copies. */
  lemma StagedEnvIsBacked(s: Sys, calls: seq<Call>)
    requires FreshSys(s)
    ensures var t := DoAll(s, calls);
            t.world.env == Staged ==>
              && t.world.created && t.world.identified && t.world.restored && t.world.verified
              && t.world.protectedEnv == Some(Original) && t.world.protectedWatchlist == Some(Original)
              && ENV_SWITCH_STARTED <= t.store.main.phase <= ROLLBACK_ENV_STARTED
  {
    Reachable(s, calls);
  }

  /** Whenever the replacement has been dropped, it was dropped once, and nothing points at it. */
  lemma DroppedMeansInactive(s: Sys, calls: seq<Call>)
    requires FreshSys(s)
    ensures var t := DoAll(s, calls);
            && t.world.effects[CleanupDrop] <= 1
            && (t.world.effects[CleanupDrop] == 1 ==>
                  && !t.world.created && t.world.env == Original && t.world.app == OnOriginal
                  && t.store.main.phase in {RESTORE_STARTED, VERIFICATION_STARTED, ROLLED_BACK})
  {
    Reachable(s, calls);
  }

  /** A finished rollback has restored everything the record knows to have been switched. */
  lemma RolledBackMeansOriginal(s: Sys, calls: seq<Call>)
    requires FreshSys(s)
    ensures var t := DoAll(s, calls);
            t.store.main.phase == ROLLED_BACK ==>
              && t.world.env == Original && t.world.app == OnOriginal && t.world.ready && !t.world.monitorRunning
              && (t.store.main.watchlistWasSwitched ==> t.world.watchlist == Original)
  {
    Reachable(s, calls);
  }

  /** Once the monitor has been started, no later call reaches the rollback branch. */
  lemma PointOfNoReturn(s: Sys, calls: seq<Call>, more: seq<Call>)
    requires FreshSys(s)
    requires DoAll(s, calls).world.effects[StartMonitor] == 1
    ensures MONITOR_START_STARTED <= DoAll(s, calls).store.main.phase <= COMPLETED
    ensures MONITOR_START_STARTED <= DoAll(DoAll(s, calls), more).store.main.phase <= COMPLETED
  {
    Reachable(s, calls);
    DoAllEvolves(DoAll(s, calls), more);
  }

  /** Manual reconciliation recorded before completion makes completion unreachable. */
  lemma ManualBlocksCompletion(s: Sys, calls: seq<Call>)
    requires s.store.main.manual && s.store.main.phase < COMPLETED
    ensures DoAll(s, calls).store.main.manual && DoAll(s, calls).store.main.phase != COMPLETED
  {
    DoAllEvolves(s, calls);
  }

  /** A failed verification is final: the incident stays at the verification intent. */
  lemma FailedVerificationIsFinal(s: Sys, calls: seq<Call>, more: seq<Call>)
    requires FreshSys(s)
    requires DoAll(s, calls).store.main.verification == Failed
    ensures DoAll(DoAll(s, calls), more).store.main.phase == VERIFICATION_STARTED
    ensures DoAll(DoAll(s, calls), more).world.env == Original
  {
    Reachable(s, calls);
    DoAllKeeps(DoAll(s, calls), more);
    DoAllEvolves(DoAll(s, calls), more);
  }

  /** Completed cleanup: a bound terminal child, one observed drop, and no replacement ever after. */
  lemma CompletedCleanupIsFinal(s: Sys, calls: seq<Call>, more: seq<Call>)
    requires FreshSys(s)
    requires DoAll(s, calls).store.main.cleanupCompleted
    ensures var t := DoAll(DoAll(s, calls), more);
            && t.store.child.Some? && BoundTo(t.store.main, t.store.child.value)
            && t.store.child.value.phase == CleanupCompleted && t.store.child.value.dropObserved
            && t.world.effects[CleanupDrop] == 1 && !t.world.created
  {
    Reachable(s, calls);
    DoAllKeeps(DoAll(s, calls), more);
    DoAllEvolves(DoAll(s, calls), more);
  }
}
