/**
 Exactly when a crash-free run completes, after any number of cut runs, and that the
 effects have then happened exactly once.
 */
module RecoveryLiveness {
  import opened Wrappers
  import opened RecoveryModels
  import opened RecoveryRecord
  import opened RecoveryWorld
  import opened RecoveryProtocol
  import opened RecoverySafety
  import opened RecoveryTheorems
  import opened RecoveryConvergence
  import opened RecoveryForward

  // ---------------------------------------------------------------- a run on track goes through

  /** One iteration of a run that is going: it goes on, or stops without raising. */
  lemma IterationGoes(m: Machine, cfg: Config, strict: bool)
    requires Going(m, cfg) && Kept(m.sys, cfg, strict) && m.sys.store.main.phase < COMPLETED
    ensures var m' := ForwardIteration(m, cfg);
            && Smooth(m, m', cfg.crash.None?) && SysInv(m'.sys) && Kept(m'.sys, cfg, strict)
            && (m'.flow == Live ==> Going(m', cfg))
            && (m.life == Immortal ==> !Window(m'.sys.store.main))
  {
    var a := ForwardAction(m.sys.store.main.phase, cfg);
    IterationSmooth(m, cfg);
    ForwardSuits(m.sys, cfg);
    ActKeeps(m, cfg, a);
    ForwardChooses(m.sys, cfg, strict);
    ActOnTrack(m, cfg, a, strict);
    if m.life == Immortal || ForwardIteration(m, cfg).flow == Live { IterationClear(m, cfg); }
  }

  /** A run that starts on track never raises, and completes when nothing cuts it. */
  lemma {:induction false} LoopGoes(m: Machine, cfg: Config, strict: bool)
    requires Going(m, cfg) && Kept(m.sys, cfg, strict)
    ensures var m' := ForwardLoop(m, cfg);
            && !m'.flow.Raised? && SysInv(m'.sys) && Kept(m'.sys, cfg, strict)
            && (m.life == Immortal ==> !Window(m'.sys.store.main))
            && (m.life == Immortal && cfg.crash.None? ==> m'.flow == Live)
            && (m'.flow == Live ==> m'.sys.store.main.phase == COMPLETED)
    decreases 43 - m.sys.store.main.phase
  {
    if m.sys.store.main.phase != COMPLETED {
      var m1 := ForwardIteration(m, cfg);
      IterationGoes(m, cfg, strict);
      IterationClimbs(m, cfg);
      if m1.flow == Live { LoopGoes(m1, cfg, strict); } else { assert ForwardLoop(m, cfg) == m1; }
    }
  }

  // ---------------------------------------------------------------- a run off track never completes

  lemma RefusedFinish(m: Machine, op: Op)
    requires op != ProtectConfig && Report(op) != NO_FACTS
    requires m.flow == Live ==> UpdateFacts(m.sys.store, Report(op)).Err?
    ensures Finish(m, op).flow != Live && Finish(m, op).sys.store == m.sys.store
    ensures m.flow == Live ==> Finish(m, op).flow == Raised(RecordFailed(UpdateFacts(m.sys.store, Report(op)).error))
    ensures m.flow != Live ==> Finish(m, op) == m
  {
  }

  lemma RefusedAct(m: Machine, cfg: Config, op: Op, p: Phase)
    requires op != ProtectConfig && Report(op) != NO_FACTS
    requires m.flow == Live ==> UpdateFacts(m.sys.store, Report(op)).Err?
    ensures ActAndFinish(m, cfg, op, p).flow != Live && ActAndFinish(m, cfg, op, p).sys.store == m.sys.store
  {
    PerformStays(m, op, cfg.failures);
    RefusedFinish(CrashPoint(Perform(m, op, cfg.failures), cfg, p, AfterAction), op);
  }

  lemma RefusedResume(m: Machine, cfg: Config, op: Op)
    requires m.flow == Live && op != ProtectConfig && Report(op) != NO_FACTS
    requires UpdateFacts(m.sys.store, Report(op)).Err?
    ensures Resume(m, cfg, op).flow != Live && Resume(m, cfg, op).sys.store == m.sys.store
  {
    RefusedFinish(m, op);
    RefusedAct(m, cfg, op, m.sys.store.main.phase);
  }

  lemma SettledSkipRefuses(s: Store)
    requires s.main.protectionStatus == ProtectionSkipped
    ensures UpdateFacts(s, Report(ProtectionBackup)).Err?
  {
  }

  lemma SettledVerdictRefuses(s: Store)
    requires s.main.verification != NotStarted
    ensures UpdateFacts(s, Report(Verify)) == Err(FactUpdateInvalid)
  {
  }

  lemma SettledObservationRefuses(s: Store, seen: bool)
    requires s.main.firstWrite != Unknown
    ensures UpdateFacts(s, ObserveFacts(seen)) == Err(FactUpdateInvalid)
  {
  }

  lemma ObservedStays(m: Machine, cfg: Config)
    requires m.flow == Live && m.sys.store.main.firstWrite != Unknown
    ensures ObserveStep(m, cfg).flow != Live && ObserveStep(m, cfg).sys.store == m.sys.store
  {
    SettledObservationRefuses(m.sys.store, m.sys.world.writeObserved);
  }

  /** In a window no configuration and no life gets a run out: the record does not move. */
  lemma WindowStays(m: Machine, cfg: Config)
    requires m.flow == Live && Window(m.sys.store.main)
    ensures ForwardIteration(m, cfg).flow != Live && ForwardIteration(m, cfg).sys.store == m.sys.store
  {
    if m.sys.store.main.phase == VERIFICATION_STARTED {
      SettledVerdictRefuses(m.sys.store);
      RefusedResume(m, cfg, Verify);
      IterationIs(m, cfg, Again(Verify), Resume(m, cfg, Verify));
    } else {
      ObservedStays(m, cfg);
      IterationIs(m, cfg, Observe, ObserveStep(m, cfg));
    }
  }

  /** An iteration either stops at the facts it demands of the outside, or is its action. */
  lemma IterationIs(m: Machine, cfg: Config, a: Action, m': Machine)
    requires m.flow == Live && ForwardAction(m.sys.store.main.phase, cfg) == a && Act(m, cfg, a) == m'
    ensures ForwardIteration(m, cfg) == m' || (ForwardIteration(m, cfg).flow.Raised? && ForwardIteration(m, cfg).sys == m.sys)
  {
  }

  lemma DroppedStays(m: Machine, cfg: Config)
    requires SysInv(m.sys) && m.flow == Live && m.sys.store.main.phase <= COMPLETED
    requires m.sys.world.effects[CleanupDrop] == 1
    ensures ForwardIteration(m, cfg).flow != Live && ForwardIteration(m, cfg).sys.store == m.sys.store
  {
    var k := m.sys.store.main.phase;
    assert k == RESTORE_STARTED || k == VERIFICATION_STARTED;
    var op := if k == RESTORE_STARTED then Restore else Verify;
    assert StatusOf(m.sys.world, op) == Pending && Handle(m.sys.world, op).Err?;
    MissingStays(m, cfg, op);
    IterationIs(m, cfg, Again(op), Resume(m, cfg, op));
  }

  lemma MissingStays(m: Machine, cfg: Config, op: Op)
    requires m.flow == Live && Handle(m.sys.world, op).Err? && StatusOf(m.sys.world, op) == Pending
    ensures Resume(m, cfg, op).flow != Live && Resume(m, cfg, op).sys.store == m.sys.store
  {
  }

  lemma SkippedStays(m: Machine, cfg: Config)
    requires m.flow == Live && cfg.protectionRequired
    requires m.sys.store.main.phase == PLANNED && m.sys.store.main.protectionStatus == ProtectionSkipped
    ensures Step(m, cfg, ProtectionBackup).flow != Live
    ensures Step(m, cfg, ProtectionBackup).sys.store.main.phase <= PROTECTION_BACKUP_STARTED
  {
    var m1 := CrashPoint(LeaseAdvance(m, PROTECTION_BACKUP_STARTED), cfg, PROTECTION_BACKUP_STARTED, AfterIntent);
    AdvanceTrace(m, PROTECTION_BACKUP_STARTED);
    SettledSkipRefuses(m1.sys.store);
    RefusedAct(m1, cfg, ProtectionBackup, PROTECTION_BACKUP_STARTED);
  }

  /** Off track or in a window, and not blocked by manual reconciliation: the first action ends the run. */
  lemma BlockedStays(m: Machine, cfg: Config)
    requires SysInv(m.sys) && m.flow == Live && m.sys.store.main.phase < COMPLETED && !m.sys.store.main.manual
    requires !OnTrack(m.sys, cfg) || Window(m.sys.store.main)
    ensures ForwardIteration(m, cfg).flow != Live && ForwardIteration(m, cfg).sys.store.main.phase <= MONITOR_STARTED
  {
    var r := m.sys.store.main;
    if Window(r) {
      WindowStays(m, cfg);
    } else if m.sys.world.effects[CleanupDrop] == 1 {
      DroppedStays(m, cfg);
    } else if r.phase == PLANNED {
      SkippedStays(m, cfg);
    } else if r.phase == PROTECTION_BACKUP_STARTED {
      SettledSkipRefuses(m.sys.store);
      RefusedResume(m, cfg, ProtectionBackup);
    } else {
      AuthorizedStays(m, cfg);
    }
  }

  lemma AuthorizedStays(m: Machine, cfg: Config)
    requires m.flow == Live && m.sys.store.main.phase == ENV_SWITCHED
    requires m.sys.store.main.watchlistAuthorized && !cfg.watchlistSwitch
    ensures ForwardIteration(m, cfg).flow != Live && ForwardIteration(m, cfg).sys.store == m.sys.store
  {
    var m' := LeaseAdvance(m, CONFIG_SWITCHED);
    assert Advance(m.sys.store, CONFIG_SWITCHED).Err?;
    assert m'.flow != Live && m'.sys.store == m.sys.store;
    assert AfterEnvStep(m, cfg) == m';
    IterationIs(m, cfg, AfterEnv, m');
  }

  lemma RunHandlerTrace(m: Machine)
    ensures RunHandler(m).0.store.main.phase == m.sys.store.main.phase
    ensures RunHandler(m).1 == Pass <==> m.flow == Live
    ensures !m.flow.Raised? ==> RunHandler(m).0 == m.sys
  {
  }

  lemma OffTrackNeverCompletes(s: Sys, cfg: Config, life: Lifetime)
    requires SysInv(s) && s.store.main.phase != COMPLETED
    requires !OnTrack(s, cfg) || Window(s.store.main)
    ensures Run(s, cfg, life).0.store.main.phase != COMPLETED
  {
    var m := Machine(s, life, Live);
    if s.store.main.phase > COMPLETED || s.store.main.manual {
      RunEvolves(s, cfg, life);
    } else {
      BlockedStays(m, cfg);
      var m1 := ForwardIteration(m, cfg);
      assert ForwardLoop(m, cfg) == m1;
      RunHandlerTrace(m1);
    }
  }

  // ---------------------------------------------------------------- the convergence theorem

  /**
   An uninterrupted run without a failing operation completes exactly when the incident
   was complete already, or is on track and outside the two windows.
   */
  lemma RunConverges(s: Sys, cfg: Config)
    requires SysInv(s) && cfg.failures == {} && cfg.crash.None?
    ensures Run(s, cfg, Immortal).0.store.main.phase == COMPLETED
            <==> s.store.main.phase == COMPLETED || (OnTrack(s, cfg) && !Window(s.store.main))
    ensures Run(s, cfg, Immortal).1 == Pass <==> Run(s, cfg, Immortal).0.store.main.phase == COMPLETED
  {
    var m := Machine(s, Immortal, Live);
    var m1 := ForwardLoop(m, cfg);
    RunHandlerTrace(m1);
    LoopEnds(m, cfg);
    if s.store.main.phase == COMPLETED {
    } else if OnTrack(s, cfg) && !Window(s.store.main) {
      LoopGoes(m, cfg, false);
    } else {
      OffTrackNeverCompletes(s, cfg, Immortal);
    }
  }

  lemma {:induction false} LoopEnds(m: Machine, cfg: Config)
    ensures ForwardLoop(m, cfg).flow == Live ==> ForwardLoop(m, cfg).sys.store.main.phase == COMPLETED
    decreases if m.flow == Live then 43 - m.sys.store.main.phase else 0
  {
    if m.flow == Live && m.sys.store.main.phase != COMPLETED {
      IterationClimbs(m, cfg);
      LoopEnds(ForwardIteration(m, cfg), cfg);
    }
  }

  // ---------------------------------------------------------------- after any number of cut runs

  lemma VerdictRaises(m: Machine, cfg: Config)
    requires SysInv(m.sys) && OnTrack(m.sys, cfg) && m.flow == Live && cfg.failures == {}
    requires m.sys.store.main.phase == VERIFICATION_STARTED && m.sys.store.main.verification != NotStarted
    ensures var m' := Resume(m, cfg, Verify); m'.flow == Died || m'.flow == Raised(RecordFailed(FactUpdateInvalid))
  {
  }

  lemma ObservationRaises(m: Machine, cfg: Config)
    requires m.flow == Live && cfg.failures == {} && m.sys.store.main.firstWrite != Unknown
    ensures var m' := ObserveStep(m, cfg); m'.flow == Died || m'.flow == Raised(RecordFailed(FactUpdateInvalid))
  {
    SettledObservationRefuses(m.sys.store, m.sys.world.writeObserved);
  }

  /** On track, an iteration is its action. */
  lemma IterationActs(m: Machine, cfg: Config, a: Action)
    requires SysInv(m.sys) && OnTrack(m.sys, cfg) && m.flow == Live
    requires ForwardAction(m.sys.store.main.phase, cfg) == a
    ensures ForwardIteration(m, cfg) == Act(m, cfg, a)
  {
    ExternalFactsHold(m.sys, cfg);
  }

  lemma VerdictIterationRaises(m: Machine, cfg: Config)
    requires SysInv(m.sys) && OnTrack(m.sys, cfg) && m.flow == Live && cfg.failures == {}
    requires m.sys.store.main.phase == VERIFICATION_STARTED && m.sys.store.main.verification != NotStarted
    ensures var m' := ForwardIteration(m, cfg); m'.flow == Died || m'.flow == Raised(RecordFailed(FactUpdateInvalid))
  {
    VerdictRaises(m, cfg);
    IterationActs(m, cfg, Again(Verify));
  }

  lemma ObservationIterationRaises(m: Machine, cfg: Config)
    requires SysInv(m.sys) && OnTrack(m.sys, cfg) && m.flow == Live && cfg.failures == {}
    requires m.sys.store.main.phase == MONITOR_STARTED && m.sys.store.main.firstWrite != Unknown
    ensures var m' := ForwardIteration(m, cfg); m'.flow == Died || m'.flow == Raised(RecordFailed(FactUpdateInvalid))
  {
    ObservationRaises(m, cfg);
    IterationActs(m, cfg, Observe);
  }

  /** A run that starts in a window fails on the write-once guard and records nothing. */
  lemma WindowRaises(m: Machine, cfg: Config)
    requires SysInv(m.sys) && OnTrack(m.sys, cfg) && m.flow == Live && cfg.failures == {} && Window(m.sys.store.main)
    ensures var m' := ForwardLoop(m, cfg); m'.flow == Died || m'.flow == Raised(RecordFailed(FactUpdateInvalid))
  {
    if m.sys.store.main.phase == VERIFICATION_STARTED {
      VerdictIterationRaises(m, cfg);
    } else {
      ObservationIterationRaises(m, cfg);
    }
    assert ForwardLoop(m, cfg) == ForwardIteration(m, cfg);
  }

  /** The same owner, asking for the same things, with nothing failing: only crashes vary. */
  predicate SameOwner(c: Call, cfg: Config) {
    c.MonitorWrites?
    || (c.CallRun? && c.cfg.failures == {}
        && c.cfg.watchlistSwitch == cfg.watchlistSwitch && c.cfg.protectionRequired == cfg.protectionRequired)
  }

  /** A run cut anywhere leaves the incident on track; one cut only by injected crashes, outside the windows. */
  lemma RunStaysOnTrack(s: Sys, cfg: Config, life: Lifetime)
    requires SysInv(s) && Kept(s, cfg, true) && cfg.failures == {}
    ensures Kept(Run(s, cfg, life).0, cfg, true)
    ensures life == Immortal && !Window(s.store.main) ==> !Window(Run(s, cfg, life).0.store.main)
  {
    var m := Machine(s, life, Live);
    var m1 := ForwardLoop(m, cfg);
    RunHandlerTrace(m1);
    if Window(s.store.main) {
      WindowRaises(m, cfg);
      ForwardLoopOnTrack(m, cfg, true);
      assert RunHandler(m1).0 == m1.sys;
    } else {
      LoopGoes(m, cfg, true);
    }
  }

  lemma {:induction false} CallsStayOnTrack(s: Sys, calls: seq<Call>, cfg: Config)
    requires SysInv(s) && Kept(s, cfg, true)
    requires forall c :: c in calls ==> SameOwner(c, cfg)
    ensures SysInv(DoAll(s, calls)) && Kept(DoAll(s, calls), cfg, true)
    ensures (forall c :: c in calls && c.CallRun? ==> c.life == Immortal) && !Window(s.store.main)
            ==> !Window(DoAll(s, calls).store.main)
    decreases |calls|
  {
    if calls != [] {
      var c := calls[0];
      assert c in calls;
      DoKeeps(s, c);
      if c.CallRun? { RunStaysOnTrack(s, c.cfg, c.life); }
      assert forall d :: d in calls[1..] ==> d in calls;
      CallsStayOnTrack(Do(s, c), calls[1..], cfg);
    }
  }

  /** Every operation this configuration asks for has taken effect exactly once, and no other has. */
  predicate AllOnce(w: World, cfg: Config) {
    var n := w.effects;
    && n[ProtectionBackup] == (if cfg.protectionRequired then 1 else 0)
    && n[CreateReplacement] == 1 && n[CommitIdentity] == 1 && n[Restore] == 1 && n[Verify] == 1
    && n[StopServices] == 1 && n[ProtectConfig] == 1 && n[SwitchEnv] == 1
    && n[SwitchWatchlist] == (if cfg.watchlistSwitch then 1 else 0)
    && n[StartReplacement] == 1 && n[CheckReplacement] == 1 && n[StartMonitor] == 1
    && n[RollbackStopMonitor] == 0 && n[RollbackStopApp] == 0 && n[RollbackEnv] == 0 && n[RollbackWatchlist] == 0
    && n[StartOriginal] == 0 && n[CheckOriginal] == 0 && n[CleanupDrop] == 0
  }

  lemma CompletedMeansAllOnce(s: Sys, cfg: Config)
    requires SysInv(s) && Kept(s, cfg, true) && s.store.main.phase == COMPLETED
    ensures AllOnce(s.world, cfg)
  {
  }

  /**
   After any number of runs of one owner, each cut at any durable effect, an uninterrupted
   run completes with every effect exactly once, unless a cut fell into one of the windows.
   */
  lemma CutRunsConverge(s: Sys, calls: seq<Call>, cfg: Config)
    requires FreshSys(s)
    requires cfg.failures == {} && cfg.crash.None?
    requires forall c :: c in calls ==> SameOwner(c, cfg)
    ensures var t := DoAll(s, calls);
            var (u, verdict) := Run(t, cfg, Immortal);
            && (verdict == Pass <==> !Window(t.store.main))
            && (verdict == Pass ==> u.store.main.phase == COMPLETED && AllOnce(u.world, cfg))
  {
    var t := DoAll(s, calls);
    FreshSatisfies(s);
    CallsStayOnTrack(s, calls, cfg);
    RunConverges(t, cfg);
    RunKeeps(t, cfg, Immortal);
    RunStaysOnTrack(t, cfg, Immortal);
    if Run(t, cfg, Immortal).1 == Pass { CompletedMeansAllOnce(Run(t, cfg, Immortal).0, cfg); }
  }

  /** When the cuts are the injected crashes, no window is ever hit: the uninterrupted run always completes. */
  lemma CrashedRunsConverge(s: Sys, calls: seq<Call>, cfg: Config)
    requires FreshSys(s)
    requires cfg.failures == {} && cfg.crash.None?
    requires forall c :: c in calls ==> SameOwner(c, cfg) && (c.CallRun? ==> c.life == Immortal)
    ensures var (u, verdict) := Run(DoAll(s, calls), cfg, Immortal);
            verdict == Pass && u.store.main.phase == COMPLETED && AllOnce(u.world, cfg)
  {
    FreshSatisfies(s);
    CallsStayOnTrack(s, calls, cfg);
    CutRunsConverge(s, calls, cfg);
  }

  /** The same of every state that any history of calls, failing or not, leaves of a planned incident. */
  lemma ReachableRunConverges(s: Sys, calls: seq<Call>, cfg: Config)
    requires FreshSys(s) && cfg.failures == {} && cfg.crash.None?
    ensures var before := DoAll(s, calls);
            Run(before, cfg, Immortal).1 == Pass
            <==> before.store.main.phase == COMPLETED || (OnTrack(before, cfg) && !Window(before.store.main))
  {
    Reachable(s, calls);
    RunConverges(DoAll(s, calls), cfg);
  }
}
