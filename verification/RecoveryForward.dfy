/**
 Forward convergence: exactly when a crash-free run ends in COMPLETED, that crashes
 between runs do not change this, and that every operation the owner asked for has
 then taken effect exactly once.
 */
module RecoveryForward {
  import opened Wrappers
  import opened RecoveryModels
  import opened RecoveryRecord
  import opened RecoveryWorld
  import opened RecoveryProtocol
  import opened RecoverySafety
  import opened RecoveryTheorems
  import opened RecoveryConvergence

  // ---------------------------------------------------------------- what keeps a run on track

  /** Nothing recorded so far contradicts this owner's configuration or forbids completion. */
  predicate OnTrack(s: Sys, cfg: Config) {
    var r := s.store.main;
    && r.phase <= COMPLETED
    && (r.phase < COMPLETED ==> !r.manual)
    && ((r.phase == PLANNED && cfg.protectionRequired) || r.phase == PROTECTION_BACKUP_STARTED ==>
          r.protectionStatus != ProtectionSkipped)
    && (r.phase < ENV_SWITCHED || (r.phase == ENV_SWITCHED && !cfg.watchlistSwitch) ==> !r.watchlistAuthorized)
    && s.world.effects[CleanupDrop] == 0
  }

  /** The two windows in which a write-once verdict is durable but its phase is not. */
  predicate Window(r: Record) {
    || (r.phase == VERIFICATION_STARTED && r.verification != NotStarted)
    || (r.phase == MONITOR_STARTED && r.firstWrite != Unknown)
  }

  /** Every choice recorded so far is the one this configuration makes. */
  predicate Follows(r: Record, cfg: Config) {
    && (r.protectionStatus == ProtectionDone ==> cfg.protectionRequired)
    && (r.protectionStatus == ProtectionSkipped ==> !cfg.protectionRequired)
    && (r.phase == PROTECTION_BACKUP_STARTED ==> cfg.protectionRequired)
    && (r.watchlistAuthorized || r.watchlistWasSwitched || r.phase == WATCHLIST_SWITCH_STARTED ==> cfg.watchlistSwitch)
    && (r.phase == WATCHLIST_SWITCHED ==> r.watchlistWasSwitched)
    && (r.phase >= CONFIG_SWITCHED && cfg.watchlistSwitch ==> r.watchlistWasSwitched)
  }

  /** On track; under strict, with every earlier run having used the same choices. */
  predicate Kept(s: Sys, cfg: Config, strict: bool) {
    OnTrack(s, cfg) && (strict ==> Follows(s.store.main, cfg))
  }

  predicate MayGo(r: Record, target: Phase, cfg: Config, strict: bool) {
    && target <= COMPLETED
    && (target == PROTECTION_BACKUP_STARTED ==> r.protectionStatus != ProtectionSkipped && (strict ==> cfg.protectionRequired))
    && (target == WATCHLIST_SWITCH_STARTED && strict ==> cfg.watchlistSwitch)
    && (target == CONFIG_SWITCHED && r.phase == ENV_SWITCHED ==> !cfg.watchlistSwitch)
  }

  lemma AdvanceOnTrack(m: Machine, target: Phase, cfg: Config, strict: bool)
    requires Kept(m.sys, cfg, strict)
    requires m.flow == Live ==> MayGo(m.sys.store.main, target, cfg, strict)
    ensures Kept(LeaseAdvance(m, target).sys, cfg, strict)
  {
  }

  predicate Wanted(cfg: Config, strict: bool, op: Op) {
    && (op == ProtectionBackup && strict ==> cfg.protectionRequired)
    && (op == SwitchWatchlist && strict ==> cfg.watchlistSwitch)
  }

  predicate Harmless(r: Record, f: Facts, cfg: Config, strict: bool) {
    && f.manual.Keep?
    && (f.protectionStatus == Set(ProtectionSkipped) ==> r.phase == PLANNED && !cfg.protectionRequired)
    && (f.protectionStatus.Set? && f.protectionStatus.value != ProtectionSkipped ==> Wanted(cfg, strict, ProtectionBackup))
    && (f.watchlistAuthorized.Set? ==> r.phase == ENV_SWITCHED && cfg.watchlistSwitch)
    && (f.watchlistWasSwitched.Set? ==> f.watchlistWasSwitched.value && Wanted(cfg, strict, SwitchWatchlist))
  }

  lemma FactsOnTrack(m: Machine, f: Facts, cfg: Config, strict: bool)
    requires Kept(m.sys, cfg, strict)
    requires m.flow == Live ==> Harmless(m.sys.store.main, f, cfg, strict)
    ensures Kept(LeaseFacts(m, f).sys, cfg, strict)
  {
  }

  lemma PerformOnTrack(m: Machine, op: Op, cfg: Config, strict: bool)
    requires Kept(m.sys, cfg, strict) && op != CleanupDrop
    ensures Kept(Perform(m, op, cfg.failures).sys, cfg, strict)
  {
    if Handle(m.sys.world, op).Ok? { HandleSparesCleanup(m.sys.world, op); }
  }

  lemma ReportIsHarmless(r: Record, op: Op, cfg: Config, strict: bool)
    requires Wanted(cfg, strict, op)
    ensures Harmless(r, Report(op), cfg, strict)
  {
  }

  predicate Forward(op: Op, cfg: Config, strict: bool) {
    op != CleanupDrop && op != ObserveMonitor && Outcome(op) <= COMPLETED && Wanted(cfg, strict, op)
  }

  lemma OutcomeMayGo(r: Record, op: Op, cfg: Config, strict: bool)
    requires Forward(op, cfg, strict)
    ensures MayGo(r, Outcome(op), cfg, strict)
  {
  }

  lemma FinishOnTrack(m: Machine, op: Op, cfg: Config, strict: bool)
    requires Kept(m.sys, cfg, strict) && Forward(op, cfg, strict)
    ensures Kept(Finish(m, op).sys, cfg, strict)
  {
    var m1 := if op == ProtectConfig then LeaseFacts(m, ProtectedResources(m.sys.store.main)) else m;
    var m2 := FactsIfAny(m1, Report(op));
    FactsOnTrack(m, ProtectedResources(m.sys.store.main), cfg, strict);
    ReportIsHarmless(m1.sys.store.main, op, cfg, strict);
    FactsOnTrack(m1, Report(op), cfg, strict);
    OutcomeMayGo(m2.sys.store.main, op, cfg, strict);
    AdvanceOnTrack(m2, Outcome(op), cfg, strict);
  }

  lemma ActAndFinishOnTrack(m: Machine, cfg: Config, op: Op, p: Phase, strict: bool)
    requires Kept(m.sys, cfg, strict) && Forward(op, cfg, strict)
    ensures Kept(ActAndFinish(m, cfg, op, p).sys, cfg, strict)
  {
    PerformOnTrack(m, op, cfg, strict);
    FinishOnTrack(CrashPoint(Perform(m, op, cfg.failures), cfg, p, AfterAction), op, cfg, strict);
  }

  lemma StepOnTrack(m: Machine, cfg: Config, op: Op, strict: bool)
    requires Kept(m.sys, cfg, strict) && Forward(op, cfg, strict)
    requires m.flow == Live ==> MayGo(m.sys.store.main, Intent(op), cfg, strict)
    ensures Kept(Step(m, cfg, op).sys, cfg, strict)
  {
    AdvanceOnTrack(m, Intent(op), cfg, strict);
    ActAndFinishOnTrack(CrashPoint(LeaseAdvance(m, Intent(op)), cfg, Intent(op), AfterIntent), cfg, op, Intent(op), strict);
  }

  lemma ResumeOnTrack(m: Machine, cfg: Config, op: Op, strict: bool)
    requires Kept(m.sys, cfg, strict) && Forward(op, cfg, strict)
    ensures Kept(Resume(m, cfg, op).sys, cfg, strict)
  {
    FinishOnTrack(m, op, cfg, strict);
    ActAndFinishOnTrack(m, cfg, op, m.sys.store.main.phase, strict);
  }

  lemma AfterEnvOnTrack(m: Machine, cfg: Config, strict: bool)
    requires Kept(m.sys, cfg, strict) && m.sys.store.main.phase == ENV_SWITCHED
    ensures Kept(AfterEnvStep(m, cfg).sys, cfg, strict)
  {
    if cfg.watchlistSwitch {
      FactsOnTrack(m, WatchlistFacts(m.sys.store.main), cfg, strict);
      StepOnTrack(LeaseFacts(m, WatchlistFacts(m.sys.store.main)), cfg, SwitchWatchlist, strict);
    } else {
      AdvanceOnTrack(m, CONFIG_SWITCHED, cfg, strict);
    }
  }

  lemma ObserveOnTrack(m: Machine, cfg: Config, strict: bool)
    requires Kept(m.sys, cfg, strict)
    ensures Kept(ObserveStep(m, cfg).sys, cfg, strict)
  {
    var seen := m.sys.world.writeObserved;
    var m1 := Perform(m, ObserveMonitor, cfg.failures);
    var m2 := LeaseFacts(m1, ObserveFacts(seen));
    PerformOnTrack(m, ObserveMonitor, cfg, strict);
    FactsOnTrack(m1, ObserveFacts(seen), cfg, strict);
    AdvanceOnTrack(m2, MONITOR_WRITE_OBSERVED, cfg, strict);
    AdvanceOnTrack(if seen then LeaseAdvance(m2, MONITOR_WRITE_OBSERVED) else m2, COMPLETED, cfg, strict);
  }

  lemma FactsThenAdvanceOnTrack(m: Machine, f: Facts, cfg: Config, target: Phase, strict: bool)
    requires Kept(m.sys, cfg, strict) && Harmless(m.sys.store.main, f, cfg, strict)
    requires target == PROTECTION_BACKUP_SKIPPED || target == MONITOR_START_AUTHORIZED
    ensures Kept(LeaseAdvance(CrashPoint(LeaseFacts(m, f), cfg, target, AfterFacts), target).sys, cfg, strict)
  {
    FactsOnTrack(m, f, cfg, strict);
    AdvanceOnTrack(CrashPoint(LeaseFacts(m, f), cfg, target, AfterFacts), target, cfg, strict);
  }

  /** What the forward loop chooses in a state that is on track. */
  predicate Chosen(r: Record, cfg: Config, a: Action, strict: bool) {
    match a
    case Fresh(op) => Forward(op, cfg, strict) && MayGo(r, Intent(op), cfg, strict)
    case Again(op) => Forward(op, cfg, strict)
    case SkipProtection => r.phase == PLANNED && !cfg.protectionRequired
    case AfterEnv => r.phase == ENV_SWITCHED
    case Plain(target) => MayGo(r, target, cfg, strict)
    case _ => true
  }

  lemma ForwardChooses(s: Sys, cfg: Config, strict: bool)
    requires Kept(s, cfg, strict)
    ensures Chosen(s.store.main, cfg, ForwardAction(s.store.main.phase, cfg), strict)
  {
  }

  /** A forward action, cut anywhere, leaves the incident on track. */
  lemma ActOnTrack(m: Machine, cfg: Config, a: Action, strict: bool)
    requires Kept(m.sys, cfg, strict) && Chosen(m.sys.store.main, cfg, a, strict)
    ensures Kept(Act(m, cfg, a).sys, cfg, strict)
  {
    match a
    case Fresh(op) => StepOnTrack(m, cfg, op, strict);
    case Again(op) => ResumeOnTrack(m, cfg, op, strict);
    case SkipProtection => FactsThenAdvanceOnTrack(m, SkipFacts(m.sys.store.main), cfg, PROTECTION_BACKUP_SKIPPED, strict);
    case AfterEnv => AfterEnvOnTrack(m, cfg, strict);
    case AuthorizeMonitor => FactsThenAdvanceOnTrack(m, AuthorizeFacts(m.sys.store.main), cfg, MONITOR_START_AUTHORIZED, strict);
    case Observe => ObserveOnTrack(m, cfg, strict);
    case Plain(target) => AdvanceOnTrack(m, target, cfg, strict);
    case Stuck =>
  }

  lemma {:induction false} ForwardLoopOnTrack(m: Machine, cfg: Config, strict: bool)
    requires Kept(m.sys, cfg, strict)
    ensures Kept(ForwardLoop(m, cfg).sys, cfg, strict)
    decreases if m.flow == Live then 43 - m.sys.store.main.phase else 0
  {
    if m.flow == Live && m.sys.store.main.phase != COMPLETED {
      var a := ForwardAction(m.sys.store.main.phase, cfg);
      ForwardChooses(m.sys, cfg, strict);
      ActOnTrack(m, cfg, a, strict);
      IterationClimbs(m, cfg);
      ForwardLoopOnTrack(ForwardIteration(m, cfg), cfg, strict);
    }
  }

  // ---------------------------------------------------------------- an action on track goes through

  /** An on-track state outside the windows: what a run starts from, and comes back to. */
  predicate Going(m: Machine, cfg: Config) {
    && SysInv(m.sys) && OnTrack(m.sys, cfg) && !Window(m.sys.store.main)
    && m.flow == Live && cfg.failures == {}
  }

  lemma FreshStarts(m: Machine, cfg: Config, op: Op)
    requires Going(m, cfg) && ForwardAction(m.sys.store.main.phase, cfg) == Fresh(op)
    ensures Startable(m, op)
  {
    ForwardSuits(m.sys, cfg);
    ForwardFollows(m.sys.store.main.phase, cfg, op);
    IntentAccepted(m.sys, op);
  }

  lemma ForwardFollows(p: Phase, cfg: Config, op: Op)
    requires ForwardAction(p, cfg) == Fresh(op)
    ensures CanFollow(p, Intent(op)) && Intent(op) != ROLLBACK_STARTED && op != CleanupDrop && op != ObserveMonitor
    ensures p != ENV_SWITCHED && p != ROLLBACK_ENV_COMPLETED
    ensures op == ProtectionBackup ==> p == PLANNED && cfg.protectionRequired
    ensures op == Verify ==> p == RESTORE_COMPLETED
  {
  }

  lemma AgainFits(m: Machine, cfg: Config, op: Op)
    requires Going(m, cfg) && ForwardAction(m.sys.store.main.phase, cfg) == Again(op)
    ensures Suits(m.sys, Again(op)) && ReportFits(m.sys.store.main, op)
  {
    ForwardSuits(m.sys, cfg);
  }

  lemma SkipSmooth(m: Machine, cfg: Config)
    requires Going(m, cfg) && m.sys.store.main.phase == PLANNED && !cfg.protectionRequired
    ensures Smooth(m, SkipStep(m, cfg), Calm(cfg, PROTECTION_BACKUP_SKIPPED))
  {
    SkipFactsAccepted(m.sys);
    FactsThenAdvanceSmooth(m, cfg, SkipFacts(m.sys.store.main), PROTECTION_BACKUP_SKIPPED);
  }

  lemma SkipFactsAccepted(s: Sys)
    requires ValidRecord(s.store.main) && RecordShape(s.store.main) && s.store.main.phase == PLANNED
    ensures UpdateFacts(s.store, SkipFacts(s.store.main)).Ok?
    ensures Advance(UpdateFacts(s.store, SkipFacts(s.store.main)).value, PROTECTION_BACKUP_SKIPPED).Ok?
  {
  }

  lemma FactsThenAdvanceSmooth(m: Machine, cfg: Config, f: Facts, target: Phase)
    requires m.flow == Live && UpdateFacts(m.sys.store, f).Ok? && Advance(UpdateFacts(m.sys.store, f).value, target).Ok?
    ensures var m1 := CrashPoint(LeaseFacts(m, f), cfg, target, AfterFacts);
            Smooth(m, CrashPoint(LeaseAdvance(m1, target), cfg, target, AfterIntent), Calm(cfg, target))
  {
  }

  lemma AuthorizeFactsAccepted(s: Sys)
    requires ValidRecord(s.store.main) && RecordShape(s.store.main) && s.store.main.phase == READINESS_PASSED
    ensures UpdateFacts(s.store, AuthorizeFacts(s.store.main)).Ok?
    ensures Advance(UpdateFacts(s.store, AuthorizeFacts(s.store.main)).value, MONITOR_START_AUTHORIZED).Ok?
  {
    var f := AuthorizeFacts(s.store.main);
    AuthorizeFactsAllowed(s.store.main);
    assert ValidRecord(Applied(s.store.main, f));
    assert UpdateFacts(s.store, f) == Ok(s.store.(main := Applied(s.store.main, f)));
    AuthorizedAdvances(s.store.(main := Applied(s.store.main, f)));
  }

  lemma AuthorizedAdvances(s: Store)
    requires ValidRecord(s.main) && s.main.phase == READINESS_PASSED && s.main.auth.monitorStart
    ensures Advance(s, MONITOR_START_AUTHORIZED).Ok?
  {
  }

  lemma AuthorizeFactsAllowed(r: Record)
    requires r.phase == READINESS_PASSED && NoneOr(r.generation, GENERATION) && NoneOr(r.baseline, BASELINE)
    ensures FactsAllowed(r, AuthorizeFacts(r))
  {
  }

  lemma AuthorizeSmooth(m: Machine, cfg: Config)
    requires Going(m, cfg) && m.sys.store.main.phase == READINESS_PASSED
    ensures Smooth(m, AuthorizeStep(m, cfg), Calm(cfg, MONITOR_START_AUTHORIZED))
  {
    AuthorizeFactsAccepted(m.sys);
    FactsThenAdvanceSmooth(m, cfg, AuthorizeFacts(m.sys.store.main), MONITOR_START_AUTHORIZED);
  }

  lemma WatchlistFactsAccepted(s: Sys)
    requires ValidRecord(s.store.main) && s.store.main.phase == ENV_SWITCHED
    ensures UpdateFacts(s.store, WatchlistFacts(s.store.main)).Ok?
    ensures Advance(UpdateFacts(s.store, WatchlistFacts(s.store.main)).value, WATCHLIST_SWITCH_STARTED).Ok?
  {
  }

  lemma WatchlistStartable(m: Machine, cfg: Config)
    requires Going(m, cfg) && m.sys.store.main.phase == ENV_SWITCHED && cfg.watchlistSwitch
    ensures var m1 := LeaseFacts(m, WatchlistFacts(m.sys.store.main)); Startable(m1, SwitchWatchlist) && Smooth(m, m1, true)
  {
    WatchlistFactsAccepted(m.sys);
    FactsSmooth(m, WatchlistFacts(m.sys.store.main));
    FactsKeep(m, WatchlistFacts(m.sys.store.main));
  }

  lemma AfterEnvSmooth(m: Machine, cfg: Config)
    requires Going(m, cfg) && m.sys.store.main.phase == ENV_SWITCHED
    ensures Smooth(m, AfterEnvStep(m, cfg), Calm(cfg, WATCHLIST_SWITCH_STARTED))
  {
    if cfg.watchlistSwitch {
      var m1 := LeaseFacts(m, WatchlistFacts(m.sys.store.main));
      WatchlistStartable(m, cfg);
      StepSmooth(m1, cfg, SwitchWatchlist);
      SmoothTransitive(m, m1, Step(m1, cfg, SwitchWatchlist), Calm(cfg, WATCHLIST_SWITCH_STARTED));
    } else {
      AdvanceSmooth(m, CONFIG_SWITCHED);
    }
  }

  lemma ObserveFactsAccepted(s: Sys)
    requires ValidRecord(s.store.main) && RecordShape(s.store.main)
    requires s.store.main.phase == MONITOR_STARTED && s.store.main.firstWrite == Unknown && !s.store.main.manual
    ensures var seen := s.world.writeObserved;
            var u := UpdateFacts(s.store, ObserveFacts(seen));
            && u.Ok?
            && (seen ==> Advance(u.value, MONITOR_WRITE_OBSERVED).Ok?
                         && Advance(Advance(u.value, MONITOR_WRITE_OBSERVED).value, COMPLETED).Ok?)
            && (!seen ==> Advance(u.value, COMPLETED).Ok?)
  {
    var f := ObserveFacts(s.world.writeObserved);
    ObserveFactsAllowed(s.store.main, s.world.writeObserved);
    assert ValidRecord(Applied(s.store.main, f));
    assert UpdateFacts(s.store, f) == Ok(s.store.(main := Applied(s.store.main, f)));
    ObservedAdvances(s.store.(main := Applied(s.store.main, f)));
  }

  lemma ObserveFactsAllowed(r: Record, seen: bool)
    requires r.phase == MONITOR_STARTED && r.firstWrite == Unknown && r.firstWriteAt.None?
    ensures FactsAllowed(r, ObserveFacts(seen))
  {
  }

  lemma ObservedAdvances(s: Store)
    requires ValidRecord(s.main) && s.main.phase == MONITOR_STARTED && s.main.firstWrite != Unknown && !s.main.manual
    ensures Advance(s, COMPLETED).Ok?
    ensures Advance(s, MONITOR_WRITE_OBSERVED).Ok? && Advance(Advance(s, MONITOR_WRITE_OBSERVED).value, COMPLETED).Ok?
  {
  }

  lemma ObserveSmooth(m: Machine, cfg: Config)
    requires Going(m, cfg) && m.sys.store.main.phase == MONITOR_STARTED
    ensures Smooth(m, ObserveStep(m, cfg), true)
  {
    var seen := m.sys.world.writeObserved;
    var m1 := Perform(m, ObserveMonitor, cfg.failures);
    var m2 := LeaseFacts(m1, ObserveFacts(seen));
    PerformSmooth(m, ObserveMonitor, cfg.failures);
    PerformStays(m, ObserveMonitor, cfg.failures);
    ObserveFactsAccepted(m.sys);
    FactsSmooth(m1, ObserveFacts(seen));
    if seen {
      AdvanceSmooth(m2, MONITOR_WRITE_OBSERVED);
      AdvanceSmooth(LeaseAdvance(m2, MONITOR_WRITE_OBSERVED), COMPLETED);
    } else {
      AdvanceSmooth(m2, COMPLETED);
    }
  }

  lemma PlainSmooth(m: Machine, cfg: Config, target: Phase)
    requires Going(m, cfg) && ForwardAction(m.sys.store.main.phase, cfg) == Plain(target)
    ensures Smooth(m, LeaseAdvance(m, target), true)
  {
  }

  /** The phase at whose crash points the next action may die. */
  function Touched(p: Phase, cfg: Config): Phase {
    match ForwardAction(p, cfg)
    case Fresh(op) => Intent(op)
    case SkipProtection => PROTECTION_BACKUP_SKIPPED
    case AfterEnv => WATCHLIST_SWITCH_STARTED
    case AuthorizeMonitor => MONITOR_START_AUTHORIZED
    case _ => p
  }

  lemma ExternalFactsHold(s: Sys, cfg: Config)
    requires SysInv(s) && OnTrack(s, cfg)
    ensures ExternalFactsOk(s)
  {
  }

  /** On track and outside the windows, no action raises, and only a crash injected at its phase stops it. */
  lemma IterationSmooth(m: Machine, cfg: Config)
    requires Going(m, cfg) && m.sys.store.main.phase < COMPLETED
    ensures Smooth(m, ForwardIteration(m, cfg), Calm(cfg, Touched(m.sys.store.main.phase, cfg)))
    ensures ForwardIteration(m, cfg) == Act(m, cfg, ForwardAction(m.sys.store.main.phase, cfg))
  {
    ExternalFactsHold(m.sys, cfg);
    match ForwardAction(m.sys.store.main.phase, cfg)
    case Fresh(op) => FreshStarts(m, cfg, op); StepSmooth(m, cfg, op);
    case Again(op) => AgainFits(m, cfg, op); ResumeSmooth(m, cfg, op);
    case SkipProtection => SkipSmooth(m, cfg);
    case AfterEnv => AfterEnvSmooth(m, cfg);
    case AuthorizeMonitor => AuthorizeSmooth(m, cfg);
    case Observe => ObserveSmooth(m, cfg);
    case Plain(target) => PlainSmooth(m, cfg, target);
    case Stuck =>
  }

  // ---------------------------------------------------------------- where an action leaves the record

  lemma FinishTrace(m: Machine, op: Op)
    ensures var r, r' := m.sys.store.main, Finish(m, op).sys.store.main;
            (r'.phase == r.phase || r'.phase == Outcome(op)) && r'.firstWrite == r.firstWrite
    ensures m.flow != Live ==> Finish(m, op) == m
  {
    var m1 := if op == ProtectConfig then LeaseFacts(m, ProtectedResources(m.sys.store.main)) else m;
    var m2 := FactsIfAny(m1, Report(op));
    FactsTrace(m, ProtectedResources(m.sys.store.main));
    FactsTrace(m1, Report(op));
    AdvanceTrace(m2, Outcome(op));
  }

  lemma FactsTrace(m: Machine, f: Facts)
    ensures var r, r' := m.sys.store.main, LeaseFacts(m, f).sys.store.main;
            r'.phase == r.phase && (f.firstWrite.Keep? ==> r'.firstWrite == r.firstWrite)
    ensures m.flow != Live ==> LeaseFacts(m, f) == m
  {
  }

  lemma AdvanceTrace(m: Machine, target: Phase)
    ensures var r, r' := m.sys.store.main, LeaseAdvance(m, target).sys.store.main;
            r' == r || r' == r.(phase := target)
    ensures m.flow != Live ==> LeaseAdvance(m, target) == m
  {
  }

  lemma ActAndFinishTrace(m: Machine, cfg: Config, op: Op, p: Phase)
    ensures var r, r' := m.sys.store.main, ActAndFinish(m, cfg, op, p).sys.store.main;
            (r'.phase == r.phase || r'.phase == Outcome(op)) && r'.firstWrite == r.firstWrite
  {
    PerformStays(m, op, cfg.failures);
    FinishTrace(CrashPoint(Perform(m, op, cfg.failures), cfg, p, AfterAction), op);
  }

  lemma StepTrace(m: Machine, cfg: Config, op: Op)
    ensures var r, r' := m.sys.store.main, Step(m, cfg, op).sys.store.main;
            (r'.phase == r.phase || r'.phase == Intent(op) || r'.phase == Outcome(op)) && r'.firstWrite == r.firstWrite
  {
    AdvanceTrace(m, Intent(op));
    ActAndFinishTrace(CrashPoint(LeaseAdvance(m, Intent(op)), cfg, Intent(op), AfterIntent), cfg, op, Intent(op));
  }

  lemma ResumeTrace(m: Machine, cfg: Config, op: Op)
    ensures var r, r' := m.sys.store.main, Resume(m, cfg, op).sys.store.main;
            (r'.phase == r.phase || r'.phase == Outcome(op)) && r'.firstWrite == r.firstWrite
  {
    FinishTrace(m, op);
    ActAndFinishTrace(m, cfg, op, m.sys.store.main.phase);
  }

  lemma FactsThenAdvanceTrace(m: Machine, cfg: Config, f: Facts, target: Phase)
    ensures var r' := LeaseAdvance(CrashPoint(LeaseFacts(m, f), cfg, target, AfterFacts), target).sys.store.main;
            r'.phase == m.sys.store.main.phase || r'.phase == target
  {
    FactsTrace(m, f);
    AdvanceTrace(CrashPoint(LeaseFacts(m, f), cfg, target, AfterFacts), target);
  }

  lemma ObserveTrace(m: Machine, cfg: Config)
    ensures var k := ObserveStep(m, cfg).sys.store.main.phase;
            k == m.sys.store.main.phase || k == MONITOR_WRITE_OBSERVED || k == COMPLETED
  {
    var seen := m.sys.world.writeObserved;
    var m1 := Perform(m, ObserveMonitor, cfg.failures);
    var m2 := LeaseFacts(m1, ObserveFacts(seen));
    PerformStays(m, ObserveMonitor, cfg.failures);
    FactsTrace(m1, ObserveFacts(seen));
    AdvanceTrace(m2, MONITOR_WRITE_OBSERVED);
    AdvanceTrace(if seen then LeaseAdvance(m2, MONITOR_WRITE_OBSERVED) else m2, COMPLETED);
  }

  /** The verdict of an immortal owner is never left without its phase. */
  lemma VerdictGoesThrough(m: Machine, cfg: Config, p: Phase)
    requires Prepared(m, Verify) && m.life == Immortal && cfg.failures == {}
    ensures var r := ActAndFinish(m, cfg, Verify, p).sys.store.main;
            r == m.sys.store.main || r.phase == VERIFICATION_COMPLETED
  {
    var m1 := Perform(m, Verify, cfg.failures);
    var m2 := CrashPoint(m1, cfg, p, AfterAction);
    PerformGoes(m, Verify, cfg.failures);
    PerformStays(m, Verify, cfg.failures);
    CrashPointKeeps(m1, Verify, cfg, p, AfterAction);
    FinishSmooth(m2, Verify);
    FinishTrace(m2, Verify);
    FinishClimbs(m2, Verify);
  }

  lemma VerifyStepClear(m: Machine, cfg: Config)
    requires Startable(m, Verify) && m.life == Immortal && cfg.failures == {}
    requires m.flow == Live && m.sys.store.main.phase == RESTORE_COMPLETED
    ensures !Window(Step(m, cfg, Verify).sys.store.main)
  {
    var m1 := LeaseAdvance(m, VERIFICATION_STARTED);
    var m2 := CrashPoint(m1, cfg, VERIFICATION_STARTED, AfterIntent);
    IntentGoes(m, Verify);
    AdvanceTrace(m, VERIFICATION_STARTED);
    CrashPointKeeps(m1, Verify, cfg, VERIFICATION_STARTED, AfterIntent);
    VerdictGoesThrough(m2, cfg, VERIFICATION_STARTED);
  }

  lemma VerifyResumeClear(m: Machine, cfg: Config)
    requires Going(m, cfg) && m.life == Immortal && m.sys.store.main.phase == VERIFICATION_STARTED
    ensures !Window(Resume(m, cfg, Verify).sys.store.main)
  {
    AgainFits(m, cfg, Verify);
    ResumeReady(m, Verify);
    if StatusOf(m.sys.world, Verify) == Pending {
      VerdictGoesThrough(m, cfg, VERIFICATION_STARTED);
    } else {
      FinishSmooth(m, Verify);
      FinishClimbs(m, Verify);
    }
  }

  /** Other operations than the verification end outside both windows. */
  lemma PhaseClear(op: Op, r: Record, r': Record)
    requires op != Verify && op != ObserveMonitor && op != CleanupDrop && r.firstWrite == Unknown
    requires (r'.phase == r.phase && r.phase != VERIFICATION_STARTED) || r'.phase == Intent(op) || r'.phase == Outcome(op)
    requires r'.firstWrite == r.firstWrite
    ensures !Window(r')
  {
  }

  lemma FreshClear(m: Machine, cfg: Config, op: Op)
    requires Going(m, cfg) && (m.life == Immortal || Step(m, cfg, op).flow == Live)
    requires ForwardAction(m.sys.store.main.phase, cfg) == Fresh(op)
    ensures !Window(Step(m, cfg, op).sys.store.main)
  {
    ForwardFollows(m.sys.store.main.phase, cfg, op);
    if op != Verify {
      StepTrace(m, cfg, op);
      PhaseClear(op, m.sys.store.main, Step(m, cfg, op).sys.store.main);
    } else if Step(m, cfg, op).flow == Live {
      StepClimbs(m, cfg, op);
    } else {
      FreshStarts(m, cfg, op);
      VerifyStepClear(m, cfg);
    }
  }

  lemma AgainClear(m: Machine, cfg: Config, op: Op)
    requires Going(m, cfg) && (m.life == Immortal || Resume(m, cfg, op).flow == Live)
    requires ForwardAction(m.sys.store.main.phase, cfg) == Again(op)
    ensures !Window(Resume(m, cfg, op).sys.store.main)
  {
    AgainFits(m, cfg, op);
    if op != Verify {
      ResumeTrace(m, cfg, op);
      PhaseClear(op, m.sys.store.main, Resume(m, cfg, op).sys.store.main);
    } else if Resume(m, cfg, op).flow == Live {
      ResumeClimbs(m, cfg, op);
    } else {
      VerifyResumeClear(m, cfg);
    }
  }

  lemma ObserveClear(m: Machine, cfg: Config)
    requires Going(m, cfg) && (m.life == Immortal || ObserveStep(m, cfg).flow == Live)
    requires m.sys.store.main.phase == MONITOR_STARTED
    ensures !Window(ObserveStep(m, cfg).sys.store.main)
  {
    ObserveSmooth(m, cfg);
    ObserveTrace(m, cfg);
    ObserveClimbs(m, cfg);
  }

  lemma AfterEnvClear(m: Machine, cfg: Config)
    requires m.sys.store.main.phase == ENV_SWITCHED
    ensures !Window(AfterEnvStep(m, cfg).sys.store.main)
  {
    if cfg.watchlistSwitch {
      var m1 := LeaseFacts(m, WatchlistFacts(m.sys.store.main));
      FactsTrace(m, WatchlistFacts(m.sys.store.main));
      WatchlistStepClear(m1, cfg);
      assert AfterEnvStep(m, cfg) == Step(m1, cfg, SwitchWatchlist);
    } else {
      AdvanceTrace(m, CONFIG_SWITCHED);
    }
  }

  lemma WatchlistStepClear(m: Machine, cfg: Config)
    requires m.sys.store.main.phase == ENV_SWITCHED
    ensures !Window(Step(m, cfg, SwitchWatchlist).sys.store.main)
  {
    StepTrace(m, cfg, SwitchWatchlist);
  }

  lemma SkipClear(m: Machine, cfg: Config)
    requires m.sys.store.main.phase == PLANNED
    ensures !Window(SkipStep(m, cfg).sys.store.main)
  {
    FactsThenAdvanceTrace(m, cfg, SkipFacts(m.sys.store.main), PROTECTION_BACKUP_SKIPPED);
  }

  lemma AuthorizeClear(m: Machine, cfg: Config)
    requires m.sys.store.main.phase == READINESS_PASSED
    ensures !Window(AuthorizeStep(m, cfg).sys.store.main)
  {
    FactsThenAdvanceTrace(m, cfg, AuthorizeFacts(m.sys.store.main), MONITOR_START_AUTHORIZED);
  }

  lemma PlainClear(m: Machine, cfg: Config, target: Phase)
    requires ForwardAction(m.sys.store.main.phase, cfg) == Plain(target)
    ensures !Window(LeaseAdvance(m, target).sys.store.main)
  {
    AdvanceTrace(m, target);
  }

  /** No whole action ends in a window, nor does one of an immortal owner cut by an injected crash. */
  lemma IterationClear(m: Machine, cfg: Config)
    requires Going(m, cfg) && m.sys.store.main.phase < COMPLETED
    requires m.life == Immortal || ForwardIteration(m, cfg).flow == Live
    ensures !Window(ForwardIteration(m, cfg).sys.store.main)
  {
    IterationSmooth(m, cfg);
    match ForwardAction(m.sys.store.main.phase, cfg)
    case Fresh(op) => FreshClear(m, cfg, op);
    case Again(op) => AgainClear(m, cfg, op);
    case SkipProtection => SkipClear(m, cfg);
    case AfterEnv => AfterEnvClear(m, cfg);
    case AuthorizeMonitor => AuthorizeClear(m, cfg);
    case Observe => ObserveClear(m, cfg);
    case Plain(target) => PlainClear(m, cfg, target);
    case Stuck =>
  }
}
