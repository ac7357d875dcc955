/**
 The windows the protocol leaves open: states from which no call sequence gets out, a
 rollback that loses the watchlist, and runs from a planned incident that reach them.
 */
module RecoveryWindows {
  import opened Wrappers
  import opened RecoveryModels
  import opened RecoveryRecord
  import opened RecoveryWorld
  import opened RecoveryProtocol
  import opened RecoverySafety
  import opened RecoveryTheorems
  import opened RecoveryConvergence
  import opened RecoveryForward
  import opened RecoveryLiveness
  import opened RecoveryRollback

  // ---------------------------------------------------------------- no way out of a window

  /** The fields that make a window. */
  predicate SameVerdict(a: Record, b: Record) {
    a.phase == b.phase && a.firstWrite == b.firstWrite && (a.verification != NotStarted ==> b.verification == a.verification)
  }

  lemma FactsSameVerdict(m: Machine, f: Facts)
    requires f.firstWrite.Keep?
    ensures SameVerdict(m.sys.store.main, LeaseFacts(m, f).sys.store.main)
  {
  }

  lemma RunHandlerSameVerdict(m: Machine)
    ensures SameVerdict(m.sys.store.main, RunHandler(m).0.store.main)
  {
  }

  lemma RunInWindow(s: Sys, cfg: Config, life: Lifetime)
    requires Window(s.store.main)
    ensures SameVerdict(s.store.main, Run(s, cfg, life).0.store.main)
  {
    var m := Machine(s, life, Live);
    WindowStays(m, cfg);
    assert ForwardLoop(m, cfg) == ForwardIteration(m, cfg);
    RunHandlerSameVerdict(ForwardIteration(m, cfg));
  }

  lemma RollbackInWindow(s: Sys, cfg: Config, life: Lifetime)
    requires ValidRecord(s.store.main) && Window(s.store.main)
    ensures SameVerdict(s.store.main, Rollback(s, cfg, life).0.store.main)
  {
    RefusedRollback(s, cfg, life);
    RollbackEvolves(s, cfg, life);
  }

  lemma RequestSameVerdict(m: Machine)
    ensures SameVerdict(m.sys.store.main, Request(m).sys.store.main)
  {
    if m.flow == Live && CleanupEligible(m.sys) {
      var m1 := if !m.sys.store.main.cleanupRequested then LeaseFacts(m, RequestFacts(m.sys.store.main)) else m;
      FactsSameVerdict(m, RequestFacts(m.sys.store.main));
      CreateSparesMain(m1);
      assert Request(m).sys.store.main == m1.sys.store.main;
    }
  }

  lemma ExecuteSameVerdict(m: Machine)
    ensures SameVerdict(m.sys.store.main, Execute(m).sys.store.main)
  {
    var m2 := CompleteChild(DropOnce(StartChild(Request(m))));
    RequestSameVerdict(m);
    ChildStepsSpareMain(Request(m));
    FactsSameVerdict(m2, NO_FACTS.(cleanupCompleted := Set(true)));
  }

  /** From a window no sequence of calls, whatever their configuration or life, moves the phase again. */
  lemma {:induction false} WindowIsFinal(s: Sys, calls: seq<Call>)
    requires SysInv(s) && Window(s.store.main)
    ensures DoAll(s, calls).store.main.phase == s.store.main.phase && Window(DoAll(s, calls).store.main)
    decreases |calls|
  {
    if calls != [] {
      var c := calls[0];
      DoKeeps(s, c);
      match c {
        case CallRun(cfg, life) => RunInWindow(s, cfg, life);
        case CallRollback(cfg, life) => RollbackInWindow(s, cfg, life);
        case CallRequest(life) => RequestSameVerdict(Machine(s, life, Live));
        case CallCleanup(life) => ExecuteSameVerdict(Machine(s, life, Live));
        case MonitorWrites =>
      }
      WindowIsFinal(Do(s, c), calls[1..]);
    }
  }

  // ---------------------------------------------------------------- how a run gets to a given phase

  /** The phase after a whole action. */
  function Next(p: Phase, cfg: Config): Phase {
    match ForwardAction(p, cfg)
    case Fresh(op) => Outcome(op)
    case Again(op) => Outcome(op)
    case SkipProtection => PROTECTION_BACKUP_SKIPPED
    case AfterEnv => if cfg.watchlistSwitch then WATCHLIST_SWITCHED else CONFIG_SWITCHED
    case AuthorizeMonitor => MONITOR_START_AUTHORIZED
    case Observe => COMPLETED
    case Plain(target) => target
    case Stuck => p
  }

  /** Where a whole action lands. */
  predicate Lands(m': Machine, p: Phase) {
    m'.flow == Live ==> m'.sys.store.main.phase == p
  }

  lemma ActLands(m: Machine, cfg: Config)
    requires m.flow == Live
    ensures Lands(Act(m, cfg, ForwardAction(m.sys.store.main.phase, cfg)), Next(m.sys.store.main.phase, cfg))
  {
    match ForwardAction(m.sys.store.main.phase, cfg)
    case Fresh(op) => StepClimbs(m, cfg, op);
    case Again(op) => ResumeClimbs(m, cfg, op);
    case SkipProtection => SkipClimbs(m, cfg);
    case AfterEnv => AfterEnvClimbs(m, cfg);
    case AuthorizeMonitor => AuthorizeClimbs(m, cfg);
    case Observe => ObserveClimbs(m, cfg);
    case Plain(target) => AdvanceClimbs(m, target);
    case Stuck =>
  }

  /** On the way to phase q no action jumps past it, and the injected crash does not strike. */
  predicate Passes(q: Phase, cfg: Config) {
    forall k: Phase :: k < q ==> Next(k, cfg) <= q && Calm(cfg, Touched(k, cfg))
  }

  /** An immortal owner on track gets to q, and goes on from there. */
  lemma {:induction false} LoopReaches(m: Machine, cfg: Config, q: Phase) returns (m': Machine)
    requires Going(m, cfg) && m.life == Immortal && Kept(m.sys, cfg, true)
    requires m.sys.store.main.phase <= q < COMPLETED && Passes(q, cfg)
    ensures Going(m', cfg) && m'.life == Immortal && Kept(m'.sys, cfg, true) && m'.sys.store.main.phase == q
    ensures ForwardLoop(m, cfg) == ForwardLoop(m', cfg)
    decreases 43 - m.sys.store.main.phase
  {
    var k := m.sys.store.main.phase;
    if k == q { return m; }
    IterationGoes(m, cfg, true);
    IterationSmooth(m, cfg);
    assert Calm(cfg, Touched(k, cfg)) && Next(k, cfg) <= q;
    ActLands(m, cfg);
    IterationClimbs(m, cfg);
    m' := LoopReaches(ForwardIteration(m, cfg), cfg, q);
  }

  /** A run that starts from a planned incident gets to q alive, whatever crash is waiting behind q. */
  lemma FreshRunReaches(s: Sys, cfg: Config, q: Phase) returns (m: Machine)
    requires FreshSys(s) && cfg.failures == {} && q < COMPLETED && Passes(q, cfg)
    ensures Going(m, cfg) && m.life == Immortal && Kept(m.sys, cfg, true) && m.sys.store.main.phase == q
    ensures ForwardLoop(Machine(s, Immortal, Live), cfg) == ForwardLoop(m, cfg)
  {
    FreshSatisfies(s);
    m := LoopReaches(Machine(s, Immortal, Live), cfg, q);
  }

  function CrashAt(cfg: Config, phase: Phase, moment: Moment): Config {
    cfg.(crash := Some(CrashInjection(phase, moment)))
  }

  /** A crash injected behind the intent leaves just the intent. */
  lemma DiesAfterIntent(m: Machine, cfg: Config, op: Op)
    requires Startable(m, op) && m.flow == Live && m.life == Immortal
    requires cfg.crash == Some(CrashInjection(Intent(op), AfterIntent))
    ensures Step(m, cfg, op).flow == Died
    ensures Step(m, cfg, op).sys == m.sys.(store := m.sys.store.(main := m.sys.store.main.(phase := Intent(op))))
  {
    var m1 := LeaseAdvance(m, Intent(op));
    var m2 := CrashPoint(m1, cfg, Intent(op), AfterIntent);
    ImmortalAdvance(m, Intent(op));
    assert m2.flow == Died;
    FinishTrace(CrashPoint(Perform(m2, op, cfg.failures), cfg, Intent(op), AfterAction), op);
  }

  /** A crash injected behind the action leaves the intent and the effect, but no fact. */
  lemma DiesAfterAction(m: Machine, cfg: Config, op: Op)
    requires Startable(m, op) && m.flow == Live && m.life == Immortal && cfg.failures == {}
    requires cfg.crash == Some(CrashInjection(Intent(op), AfterAction))
    ensures var m' := Step(m, cfg, op);
            && m'.flow == Died && m'.sys.store == m.sys.store.(main := m.sys.store.main.(phase := Intent(op)))
            && StatusOf(m'.sys.world, op) == Done
  {
    var m1 := LeaseAdvance(m, Intent(op));
    var m2 := CrashPoint(m1, cfg, Intent(op), AfterIntent);
    ImmortalAdvance(m, Intent(op));
    assert m2 == m1;
    IntentGoes(m, op);
    PerformGoes(m1, op, cfg.failures);
    PerformStays(m1, op, cfg.failures);
    FinishTrace(CrashPoint(Perform(m1, op, cfg.failures), cfg, Intent(op), AfterAction), op);
  }

  /** A run that comes to m and dies in the next iteration leaves what that iteration left. */
  lemma RunStopsAfter(s: Sys, life: Lifetime, m: Machine, cfg: Config, m': Machine)
    requires ForwardLoop(Machine(s, life, Live), cfg) == ForwardLoop(m, cfg)
    requires m.flow == Live && m.sys.store.main.phase < COMPLETED
    requires ForwardIteration(m, cfg) == m' && m'.flow == Died
    ensures Run(s, cfg, life) == (m'.sys, Crashed)
  {
    assert ForwardLoop(m, cfg) == m';
  }

  // ---------------------------------------------------------------- the lost watchlist

  lemma PassesToEnvSwitched(cfg: Config)
    requires cfg.failures == {} && cfg.crash == Some(CrashInjection(WATCHLIST_SWITCH_STARTED, AfterAction))
    ensures Passes(ENV_SWITCHED, cfg)
  {
  }

  /** The watchlist is switched, its intent durable, and the switch not recorded. */
  predicate Unrecorded(s: Sys) {
    s.store.main.phase == WATCHLIST_SWITCH_STARTED && s.world.watchlist == Staged && !s.store.main.watchlistWasSwitched
  }

  lemma SwitchCutShort(m: Machine, cfg: Config)
    requires Going(m, cfg) && m.life == Immortal && m.sys.store.main.phase == ENV_SWITCHED && cfg.watchlistSwitch
    requires cfg.crash == Some(CrashInjection(WATCHLIST_SWITCH_STARTED, AfterAction))
    ensures AfterEnvStep(m, cfg).flow == Died && Unrecorded(AfterEnvStep(m, cfg).sys)
  {
    WatchlistStartable(m, cfg);
    DiesAfterAction(LeaseFacts(m, WatchlistFacts(m.sys.store.main)), cfg, SwitchWatchlist);
  }

  lemma SwitchIterationCut(m: Machine, cfg: Config)
    requires Going(m, cfg) && m.life == Immortal && m.sys.store.main.phase == ENV_SWITCHED && cfg.watchlistSwitch
    requires cfg.crash == Some(CrashInjection(WATCHLIST_SWITCH_STARTED, AfterAction))
    ensures ForwardIteration(m, cfg).flow == Died && Unrecorded(ForwardIteration(m, cfg).sys)
  {
    SwitchCutShort(m, cfg);
    IterationActs(m, cfg, AfterEnv);
  }

  lemma CrashedSwitch(s: Sys, cfg: Config)
    requires FreshSys(s) && cfg.failures == {} && cfg.watchlistSwitch
    requires cfg.crash == Some(CrashInjection(WATCHLIST_SWITCH_STARTED, AfterAction))
    ensures Unrecorded(Run(s, cfg, Immortal).0)
  {
    PassesToEnvSwitched(cfg);
    var m := FreshRunReaches(s, cfg, ENV_SWITCHED);
    SwitchIterationCut(m, cfg);
    RunStopsAfter(s, Immortal, m, cfg, ForwardIteration(m, cfg));
  }

  lemma RollbackAfterLoss(t: Sys, cfg: Config)
    requires SysInv(t) && Unrecorded(t) && cfg.failures == {} && cfg.crash.None?
    ensures var u := Rollback(t, cfg, Immortal).0; u.store.main.phase == ROLLED_BACK && u.world.watchlist == Staged
  {
    RollbackConverges(t, cfg);
    RollbackRestoresWatchlist(t, cfg, Immortal);
    RollbackKeeps(t, cfg, Immortal);
    WatchlistByFacts(Rollback(t, cfg, Immortal).0);
  }

  lemma DoTwo(s: Sys, c: Call, d: Call)
    ensures DoAll(s, [c, d]) == Do(Do(s, c), d)
  {
    assert [c, d][1..] == [d] && [d][1..] == [];
    assert DoAll(Do(s, c), [d]) == DoAll(Do(Do(s, c), d), []);
  }

  /**
   For every planned incident: a run crashed after the watchlist is switched and before that is
   recorded, then an undisturbed rollback, ends in ROLLED_BACK with the staged watchlist.
   */
  lemma RollbackLosesWatchlist(s: Sys, cfg: Config)
    requires FreshSys(s) && cfg.failures == {} && cfg.crash.None? && cfg.watchlistSwitch
    ensures var t := DoAll(s, [CallRun(CrashAt(cfg, WATCHLIST_SWITCH_STARTED, AfterAction), Immortal), CallRollback(cfg, Immortal)]);
            t.store.main.phase == ROLLED_BACK && t.world.watchlist == Staged
  {
    var crashing := CrashAt(cfg, WATCHLIST_SWITCH_STARTED, AfterAction);
    FreshSatisfies(s);
    RunKeeps(s, crashing, Immortal);
    CrashedSwitch(s, crashing);
    RollbackAfterLoss(Run(s, crashing, Immortal).0, cfg);
    DoTwo(s, CallRun(crashing, Immortal), CallRollback(cfg, Immortal));
  }

  // ---------------------------------------------------------------- reaching the two windows

  lemma ImmortalAdvance(m: Machine, target: Phase)
    requires m.flow == Live && m.life == Immortal && Advance(m.sys.store, target).Ok?
    ensures LeaseAdvance(m, target) == m.(sys := m.sys.(store := m.sys.store.(main := m.sys.store.main.(phase := target))))
  {
  }

  /** With two effects to live, a resumed verification writes its verdict and dies before its phase. */
  lemma VerdictCutShort(m: Machine, cfg: Config)
    requires Going(m, cfg) && m.life == Effects(2) && cfg.crash.None?
    requires m.sys.store.main.phase == VERIFICATION_STARTED && !m.sys.world.verified
    ensures var m' := Resume(m, cfg, Verify); m'.flow == Died && Window(m'.sys.store.main)
  {
    AgainFits(m, cfg, Verify);
    HandlerAccepts(m.sys, Verify);
    var m1 := Perform(m, Verify, cfg.failures);
    assert m1 == Machine(m.sys.(world := Handle(m.sys.world, Verify).value), Effects(1), Live);
    VerdictAccepted(m1.sys);
    var m2 := LeaseFacts(m1, Report(Verify));
    assert m2.flow == Live && m2.life == Effects(0) && m2.sys.store.main.verification == Passed;
    assert m2.sys.store.main.phase == VERIFICATION_STARTED;
    assert Finish(m1, Verify) == LeaseAdvance(m2, VERIFICATION_COMPLETED);
    DiesAtAdvance(m2, VERIFICATION_COMPLETED);
  }

  lemma DiesAtAdvance(m: Machine, target: Phase)
    requires m.flow == Live && m.life == Effects(0) && Advance(m.sys.store, target).Ok?
    ensures LeaseAdvance(m, target) == m.(flow := Died)
  {
  }

  lemma PassesToRestoreCompleted(cfg: Config)
    requires cfg.failures == {} && cfg.crash == Some(CrashInjection(VERIFICATION_STARTED, AfterIntent))
    ensures Passes(RESTORE_COMPLETED, cfg)
  {
  }

  /** The verification intent is durable and nothing has happened under it. */
  predicate IntentOnly(s: Sys, cfg: Config) {
    && OnTrack(s, cfg) && !Window(s.store.main)
    && s.store.main.phase == VERIFICATION_STARTED && !s.world.verified
  }

  lemma VerificationIterationCut(m: Machine, cfg: Config)
    requires Going(m, cfg) && m.life == Immortal && m.sys.store.main.phase == RESTORE_COMPLETED
    requires cfg.crash == Some(CrashInjection(VERIFICATION_STARTED, AfterIntent))
    ensures ForwardIteration(m, cfg).flow == Died && IntentOnly(ForwardIteration(m, cfg).sys, cfg)
  {
    FreshStarts(m, cfg, Verify);
    DiesAfterIntent(m, cfg, Verify);
    IterationActs(m, cfg, Fresh(Verify));
  }

  lemma CrashedVerification(s: Sys, cfg: Config)
    requires FreshSys(s) && cfg.failures == {}
    requires cfg.crash == Some(CrashInjection(VERIFICATION_STARTED, AfterIntent))
    ensures IntentOnly(Run(s, cfg, Immortal).0, cfg)
  {
    PassesToRestoreCompleted(cfg);
    var m := FreshRunReaches(s, cfg, RESTORE_COMPLETED);
    VerificationIterationCut(m, cfg);
    RunStopsAfter(s, Immortal, m, cfg, ForwardIteration(m, cfg));
  }

  lemma VerificationWindowNext(t: Sys, cfg: Config)
    requires SysInv(t) && IntentOnly(t, cfg) && cfg.failures == {} && cfg.crash.None?
    ensures var u := Run(t, cfg, Effects(2)).0; u.store.main.phase == VERIFICATION_STARTED && Window(u.store.main)
  {
    var m := Machine(t, Effects(2), Live);
    VerdictCutShort(m, cfg);
    ResumeTrace(m, cfg, Verify);
    IterationActs(m, cfg, Again(Verify));
    RunStopsAfter(t, Effects(2), m, cfg, Resume(m, cfg, Verify));
  }

  /**
   For every planned incident: a run crashed behind the verification intent, then one killed
   between the verdict and its phase, leaves a window no later call gets out of.
   */
  lemma VerificationWindowReached(s: Sys, cfg: Config)
    requires FreshSys(s) && cfg.failures == {} && cfg.crash.None?
    ensures var t := DoAll(s, [CallRun(CrashAt(cfg, VERIFICATION_STARTED, AfterIntent), Immortal), CallRun(cfg, Effects(2))]);
            t.store.main.phase == VERIFICATION_STARTED && Window(t.store.main)
  {
    var crashing := CrashAt(cfg, VERIFICATION_STARTED, AfterIntent);
    FreshSatisfies(s);
    RunKeeps(s, crashing, Immortal);
    CrashedVerification(s, crashing);
    VerificationWindowNext(Run(s, crashing, Immortal).0, cfg);
    DoTwo(s, CallRun(crashing, Immortal), CallRun(cfg, Effects(2)));
  }

  /** With two effects to live, an observation writes its fact and dies before completion. */
  lemma ObservationCutShort(m: Machine, cfg: Config)
    requires Going(m, cfg) && m.life == Effects(2) && m.sys.store.main.phase == MONITOR_STARTED
    ensures var m' := ObserveStep(m, cfg);
            m'.flow == Died && m'.sys.store.main.phase == MONITOR_STARTED && Window(m'.sys.store.main)
  {
    var seen := m.sys.world.writeObserved;
    var m1 := Perform(m, ObserveMonitor, cfg.failures);
    assert m1 == Machine(m.sys.(world := Handle(m.sys.world, ObserveMonitor).value), Effects(1), Live);
    ObserveFactsAccepted(m.sys);
    var m2 := LeaseFacts(m1, ObserveFacts(seen));
    assert m2.flow == Live && m2.life == Effects(0) && m2.sys.store.main.firstWrite != Unknown;
    assert m2.sys.store.main.phase == MONITOR_STARTED;
    DiesAtAdvance(m2, if seen then MONITOR_WRITE_OBSERVED else COMPLETED);
  }

  lemma ObservationIterationCut(m: Machine, cfg: Config)
    requires Going(m, cfg) && m.life == Effects(2) && m.sys.store.main.phase == MONITOR_STARTED
    ensures var m' := ForwardIteration(m, cfg);
            m'.flow == Died && m'.sys.store.main.phase == MONITOR_STARTED && Window(m'.sys.store.main)
  {
    ObservationCutShort(m, cfg);
    IterationActs(m, cfg, Observe);
  }

  // ---------------------------------------------------------------- an effect without its record

  /** The operation has taken effect under its durable intent, and no fact of it is recorded. */
  predicate ActedOnly(s: Sys, cfg: Config, op: Op) {
    && SysInv(s) && OnTrack(s, cfg) && !Window(s.store.main)
    && s.store.main.phase == Intent(op) && StatusOf(s.world, op) == Done
  }

  lemma ActionIterationCut(m: Machine, cfg: Config, op: Op)
    requires Going(m, cfg) && m.life == Immortal && ForwardAction(m.sys.store.main.phase, cfg) == Fresh(op)
    requires cfg.crash == Some(CrashInjection(Intent(op), AfterAction))
    ensures var m' := ForwardIteration(m, cfg);
            m'.flow == Died && m'.sys.store.main.phase == Intent(op) && StatusOf(m'.sys.world, op) == Done
  {
    FreshStarts(m, cfg, op);
    DiesAfterAction(m, cfg, op);
    IterationActs(m, cfg, Fresh(op));
  }

  /** For every planned incident, a run crashed after an action its loop comes to leaves just that. */
  lemma CrashedAction(s: Sys, cfg: Config, q: Phase, op: Op)
    requires FreshSys(s) && cfg.failures == {} && q < COMPLETED && Passes(q, cfg)
    requires ForwardAction(q, cfg) == Fresh(op) && cfg.crash == Some(CrashInjection(Intent(op), AfterAction))
    ensures ActedOnly(Run(s, cfg, Immortal).0, cfg, op)
  {
    FreshSatisfies(s);
    RunKeeps(s, cfg, Immortal);
    RunStaysOnTrack(s, cfg, Immortal);
    var m := FreshRunReaches(s, cfg, q);
    ActionIterationCut(m, cfg, op);
    RunStopsAfter(s, Immortal, m, cfg, ForwardIteration(m, cfg));
  }

  /** The durable writes that record an operation other than the protection of the configuration. */
  function Writes(op: Op): nat {
    if Report(op) == NO_FACTS then 1 else 2
  }

  lemma WritesOfSteps()
    ensures Writes(StartMonitor) == 1 && Writes(SwitchEnv) == 2
  {
  }

  lemma ReportSpends(m: Machine, op: Op, n: nat)
    requires Performed(m, op) && m.flow == Live && op != ProtectConfig && m.life == Effects(Writes(op) + n)
    ensures var m1 := FactsIfAny(m, Report(op));
            m1.flow == Live && m1.life == Effects(1 + n) && m1.sys.store.main == Applied(m.sys.store.main, Report(op))
  {
    ReportAccepted(m.sys, op);
  }

  lemma FinishSpends(m: Machine, op: Op, n: nat)
    requires Performed(m, op) && m.flow == Live && op != ProtectConfig && m.life == Effects(Writes(op) + n)
    ensures Finish(m, op).flow == Live && Finish(m, op).life == Effects(n)
  {
    var m1 := FactsIfAny(m, Report(op));
    ReportSpends(m, op, n);
    ReportIsHonest(m.sys, op);
    FactsIfAnyKeep(m, Report(op));
    OutcomeAccepted(m1.sys, m.sys.store.main, op);
  }

  /** The next run records the effect and goes on with what life it has left. */
  lemma RecordsEffect(t: Sys, cfg: Config, op: Op, life: Lifetime, n: nat) returns (m: Machine)
    requires ActedOnly(t, cfg, op) && ForwardAction(Intent(op), cfg) == Again(op) && op != ProtectConfig
    requires cfg.failures == {} && t.store.main.phase < COMPLETED && life == Effects(Writes(op) + n)
    ensures Going(m, cfg) && m.life == Effects(n) && m.sys.store.main.phase == Outcome(op)
    ensures ForwardLoop(Machine(t, life, Live), cfg) == ForwardLoop(m, cfg)
  {
    var m0 := Machine(t, life, Live);
    AgainFits(m0, cfg, op);
    ResumeReady(m0, op);
    FinishSpends(m0, op, n);
    IterationActs(m0, cfg, Again(op));
    m := Resume(m0, cfg, op);
    assert m == Finish(m0, op);
    ResumeClimbs(m0, cfg, op);
    IterationGoes(m0, cfg, false);
  }

  // ---------------------------------------------------------------- the other window

  lemma PassesToMonitorStart(cfg: Config)
    requires cfg.failures == {} && cfg.crash == Some(CrashInjection(MONITOR_START_STARTED, AfterAction))
    ensures Passes(MONITOR_START_AUTHORIZED, cfg)
  {
  }

  lemma MonitorWindowNext(t: Sys, cfg: Config)
    requires ActedOnly(t, cfg, StartMonitor) && cfg.failures == {}
    ensures var u := Run(t, cfg, Effects(3)).0; u.store.main.phase == MONITOR_STARTED && Window(u.store.main)
  {
    WritesOfSteps();
    var m := RecordsEffect(t, cfg, StartMonitor, Effects(3), 2);
    ObservedRunStops(t, Effects(3), m, cfg);
  }

  lemma ObservedRunStops(t: Sys, life: Lifetime, m: Machine, cfg: Config)
    requires ForwardLoop(Machine(t, life, Live), cfg) == ForwardLoop(m, cfg)
    requires Going(m, cfg) && m.life == Effects(2) && m.sys.store.main.phase == MONITOR_STARTED
    ensures var u := Run(t, cfg, life).0; u.store.main.phase == MONITOR_STARTED && Window(u.store.main)
  {
    ObservationIterationCut(m, cfg);
    RunStopsAfter(t, life, m, cfg, ForwardIteration(m, cfg));
  }

  /**
   For every planned incident: a run crashed behind the start of the monitor, then one killed
   between the observation and its phase, leaves the other window.
   */
  lemma MonitorWindowReached(s: Sys, cfg: Config)
    requires FreshSys(s) && cfg.failures == {} && cfg.crash.None?
    ensures var t := DoAll(s, [CallRun(CrashAt(cfg, MONITOR_START_STARTED, AfterAction), Immortal), CallRun(cfg, Effects(3))]);
            t.store.main.phase == MONITOR_STARTED && Window(t.store.main)
  {
    var crashing := CrashAt(cfg, MONITOR_START_STARTED, AfterAction);
    PassesToMonitorStart(crashing);
    CrashedAction(s, crashing, MONITOR_START_AUTHORIZED, StartMonitor);
    assert ActedOnly(Run(s, crashing, Immortal).0, cfg, StartMonitor);
    MonitorWindowNext(Run(s, crashing, Immortal).0, cfg);
    DoTwo(s, CallRun(crashing, Immortal), CallRun(cfg, Effects(3)));
  }

  // ---------------------------------------------------------------- the refused rollback

  lemma PassesToEnvSwitch(cfg: Config)
    requires cfg.failures == {} && cfg.crash == Some(CrashInjection(ENV_SWITCH_STARTED, AfterAction))
    ensures Passes(CONFIG_PROTECTION_COMPLETED, cfg)
  {
  }

  /** With no effect left, the action behind the switched env changes nothing. */
  lemma AfterEnvCut(m: Machine, cfg: Config)
    requires Going(m, cfg) && m.life == Effects(0) && m.sys.store.main.phase == ENV_SWITCHED
    ensures AfterEnvStep(m, cfg) == m.(flow := Died)
  {
    if cfg.watchlistSwitch {
      var m1 := LeaseFacts(m, WatchlistFacts(m.sys.store.main));
      WatchlistFactsAccepted(m.sys);
      assert m1 == m.(flow := Died);
      FinishTrace(m1, SwitchWatchlist);
      assert Step(m1, cfg, SwitchWatchlist) == m1;
    } else {
      DiesAtAdvance(m, CONFIG_SWITCHED);
    }
  }

  lemma EnvSwitchedNext(t: Sys, cfg: Config)
    requires ActedOnly(t, cfg, SwitchEnv) && cfg.failures == {}
    ensures Run(t, cfg, Effects(2)).0.store.main.phase == ENV_SWITCHED
  {
    WritesOfSteps();
    var m := RecordsEffect(t, cfg, SwitchEnv, Effects(2), 0);
    EnvIterationCut(m, cfg);
    RunStopsAfter(t, Effects(2), m, cfg, m.(flow := Died));
  }

  lemma EnvIterationCut(m: Machine, cfg: Config)
    requires Going(m, cfg) && m.life == Effects(0) && m.sys.store.main.phase == ENV_SWITCHED
    ensures ForwardIteration(m, cfg) == m.(flow := Died)
  {
    AfterEnvCut(m, cfg);
    IterationActs(m, cfg, AfterEnv);
  }

  /**
   For every planned incident: a run crashed behind the switch of the env, then one killed once
   it has recorded that, leaves ENV_SWITCHED, and an undisturbed rollback is refused there.
   */
  lemma RollbackRefusedReached(s: Sys, cfg: Config)
    requires FreshSys(s) && cfg.failures == {} && cfg.crash.None?
    ensures var t := DoAll(s, [CallRun(CrashAt(cfg, ENV_SWITCH_STARTED, AfterAction), Immortal), CallRun(cfg, Effects(2))]);
            var (u, verdict) := Rollback(t, cfg, Immortal);
            t.store.main.phase == ENV_SWITCHED && RollbackEntry(ENV_SWITCHED) && u.store.main.phase == ENV_SWITCHED && verdict != Pass
  {
    var crashing := CrashAt(cfg, ENV_SWITCH_STARTED, AfterAction);
    PassesToEnvSwitch(crashing);
    CrashedAction(s, crashing, CONFIG_PROTECTION_COMPLETED, SwitchEnv);
    assert ActedOnly(Run(s, crashing, Immortal).0, cfg, SwitchEnv);
    EnvSwitchedNext(Run(s, crashing, Immortal).0, cfg);
    DoTwo(s, CallRun(crashing, Immortal), CallRun(cfg, Effects(2)));
    var t := Run(Run(s, crashing, Immortal).0, cfg, Effects(2)).0;
    RunKeeps(Run(s, crashing, Immortal).0, cfg, Effects(2));
    RefusedRollback(t, cfg, Immortal);
  }
}
