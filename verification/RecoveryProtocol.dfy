/**
 The rehearsal protocol as a function of durable state
 (FakeProductionRecoveryOrchestrator and FakeCleanupCoordinator in
 backend/app/deploy/production_recovery_fake.py). A machine is the durable system
 (record files and world), the number of durable effects the process still lives to
 make, and a control flow: running, dead, or raising. Every durable write or world
 effect is one Commit; dead and raising machines pass through every later statement
 unchanged, so a call is the composition of its statements, and a call cut at any
 effect is the same composition with a shorter life.
 */
module RecoveryProtocol {
  import opened Wrappers
  import opened RecoveryModels
  import opened RecoveryRecord
  import opened RecoveryWorld

  datatype Sys = Sys(store: Store, world: World)

  datatype Error = ActionFailed(action: ActionError) | RecordFailed(code: ErrorCode)

  datatype Flow = Live | Died | Raised(error: Error)

  datatype Machine = Machine(sys: Sys, life: Lifetime, flow: Flow)

  datatype Moment = AfterFacts | AfterIntent | AfterAction

  /** The injected crash: die at one moment of one phase. */
  datatype CrashInjection = CrashInjection(phase: Phase, moment: Moment)

  datatype Config = Config(watchlistSwitch: bool, protectionRequired: bool, failures: set<Op>, crash: Option<CrashInjection>)

  datatype Verdict = Pass | Fail(code: ErrorCode) | Partial(reason: Option<ErrorCode>) | Crashed | Escaped(error: Error)

  // ---------------------------------------------------------------- statements

  function Raise(m: Machine, e: Error): Machine {
    m.(flow := Raised(e))
  }

  /** One durable effect: it happens, or the process dies just before it. */
  function Commit(m: Machine, next: Sys): Machine {
    if m.flow != Live then m
    else
      match m.life
      case Immortal => m.(sys := next)
      case Effects(n) => if n == 0 then m.(flow := Died) else m.(sys := next, life := Effects(n - 1))
  }

  function Persist(m: Machine, r: Result<Store, ErrorCode>): Machine {
    if m.flow != Live then m
    else
      match r
      case Err(code) => Raise(m, RecordFailed(code))
      case Ok(store) => Commit(m, m.sys.(store := store))
  }

  function LeaseAdvance(m: Machine, target: Phase): Machine {
    Persist(m, Advance(m.sys.store, target))
  }

  function LeaseFacts(m: Machine, f: Facts): Machine {
    Persist(m, UpdateFacts(m.sys.store, f))
  }

  /** An operation without a fact payload skips the update. */
  function FactsIfAny(m: Machine, f: Facts): Machine {
    if f == NO_FACTS then m else LeaseFacts(m, f)
  }

  function CrashPoint(m: Machine, cfg: Config, phase: Phase, moment: Moment): Machine {
    if m.flow == Live && cfg.crash == Some(CrashInjection(phase, moment)) then m.(flow := Died) else m
  }

  /** Protecting the configuration writes two files; every other handler is one effect. */
  function Perform(m: Machine, op: Op, failures: set<Op>): Machine {
    if m.flow != Live then m
    else if op in failures then Raise(m, ActionFailed(OperationFailed(op)))
    else
      match Handle(m.sys.world, op)
      case Err(e) => Raise(m, ActionFailed(e))
      case Ok(w) =>
        var m1 := if op == ProtectConfig && m.sys.world.protectedEnv.None?
                  then Commit(m, m.sys.(world := CopyEnv(m.sys.world))) else m;
        Commit(m1, m1.sys.(world := w))
  }

  // ---------------------------------------------------------------- one step

  /** The phase that records the completion of an operation. */
  function Outcome(op: Op): Phase {
    if op == CleanupDrop then ROLLED_BACK else Intent(op) + 1
  }

  const PROTECTION_ID := "20260716T150000.000000Z-99999999999999999999999999999999"
  const PROTECTION_MANIFEST := "6666666666666666666666666666666666666666666666666666666666666666"
  const PROTECTION_DUMP := "7777777777777777777777777777777777777777777777777777777777777777"
  const PROTECTION_WATCHLIST := "8888888888888888888888888888888888888888888888888888888888888888"

  /** The facts an operation reports; they are written before its outcome phase. */
  function Report(op: Op): Facts {
    match op
    case ProtectionBackup =>
      NO_FACTS.(protectionId := Set(Some(PROTECTION_ID)), protectionManifest := Set(Some(PROTECTION_MANIFEST)),
                protectionDump := Set(Some(PROTECTION_DUMP)), protectionWatchlist := Set(Some(PROTECTION_WATCHLIST)),
                protectionStatus := Set(ProtectionDone))
    case Verify => NO_FACTS.(verification := Set(Passed))
    case StopServices =>
      NO_FACTS.(monitorStopped := Set(Yes), leaseFree := Set(Yes), applicationStopped := Set(Yes), connectionsDrained := Set(Yes))
    case SwitchEnv => NO_FACTS.(replacementActivated := Set(true))
    case SwitchWatchlist => NO_FACTS.(watchlistWasSwitched := Set(true))
    case RollbackStopMonitor => NO_FACTS.(monitorStopped := Set(Yes), leaseFree := Set(Yes))
    case RollbackStopApp => NO_FACTS.(applicationStopped := Set(Yes), connectionsDrained := Set(Yes))
    case _ => NO_FACTS
  }

  function ProtectedResources(r: Record): Facts {
    NO_FACTS.(resources := Set(r.resources.(protectedEnv := Some(r.resources.fixed.originalEnv),
                                            protectedWatchlist := Some(r.resources.fixed.originalWatchlist))))
  }

  /** Record what was done, then the outcome phase. */
  function Finish(m: Machine, op: Op): Machine {
    var m1 := if op == ProtectConfig then LeaseFacts(m, ProtectedResources(m.sys.store.main)) else m;
    var m2 := FactsIfAny(m1, Report(op));
    LeaseAdvance(m2, Outcome(op))
  }

  /** Act under the durable intent p and record the outcome. */
  function ActAndFinish(m: Machine, cfg: Config, op: Op, p: Phase): Machine {
    Finish(CrashPoint(Perform(m, op, cfg.failures), cfg, p, AfterAction), op)
  }

  /** Persist the intent, act, persist the facts, persist the outcome. */
  function Step(m: Machine, cfg: Config, op: Op): Machine {
    ActAndFinish(CrashPoint(LeaseAdvance(m, Intent(op)), cfg, Intent(op), AfterIntent), cfg, op, Intent(op))
  }

  /** Resume under an intent that is already durable: act only if the world says it is still open. */
  function Resume(m: Machine, cfg: Config, op: Op): Machine {
    if m.flow != Live then m
    else
      match StatusOf(m.sys.world, op)
      case Unclear => Raise(m, ActionFailed(ExternalFactUnknown))
      case Pending => ActAndFinish(m, cfg, op, m.sys.store.main.phase)
      case Done => Finish(m, op)
  }

  // ---------------------------------------------------------------- forward

  datatype Action = Fresh(op: Op) | Again(op: Op) | SkipProtection | AfterEnv | AuthorizeMonitor | Observe | Plain(target: Phase) | Stuck

  function ForwardAction(p: Phase, cfg: Config): Action {
    if p == PLANNED then (if cfg.protectionRequired then Fresh(ProtectionBackup) else SkipProtection)
    else if p == PROTECTION_BACKUP_STARTED then Again(ProtectionBackup)
    else if p == PROTECTION_BACKUP_COMPLETED || p == PROTECTION_BACKUP_SKIPPED then Fresh(CreateReplacement)
    else if p == REPLACEMENT_CREATE_STARTED then Again(CreateReplacement)
    else if p == REPLACEMENT_CREATED then Fresh(CommitIdentity)
    else if p == IDENTITY_COMMIT_STARTED then Again(CommitIdentity)
    else if p == IDENTITY_COMMITTED then Fresh(Restore)
    else if p == RESTORE_STARTED then Again(Restore)
    else if p == RESTORE_COMPLETED then Fresh(Verify)
    else if p == VERIFICATION_STARTED then Again(Verify)
    else if p == VERIFICATION_COMPLETED then Fresh(StopServices)
    else if p == SERVICES_STOP_STARTED then Again(StopServices)
    else if p == SERVICES_STOPPED then Fresh(ProtectConfig)
    else if p == CONFIG_PROTECTION_STARTED then Again(ProtectConfig)
    else if p == CONFIG_PROTECTION_COMPLETED then Fresh(SwitchEnv)
    else if p == ENV_SWITCH_STARTED then Again(SwitchEnv)
    else if p == ENV_SWITCHED then AfterEnv
    else if p == WATCHLIST_SWITCH_STARTED then Again(SwitchWatchlist)
    else if p == WATCHLIST_SWITCHED then Plain(CONFIG_SWITCHED)
    else if p == CONFIG_SWITCHED then Fresh(StartReplacement)
    else if p == APPLICATION_START_STARTED then Again(StartReplacement)
    else if p == APPLICATION_STARTED then Fresh(CheckReplacement)
    else if p == READINESS_STARTED then Again(CheckReplacement)
    else if p == READINESS_PASSED then AuthorizeMonitor
    else if p == MONITOR_START_AUTHORIZED then Fresh(StartMonitor)
    else if p == MONITOR_START_STARTED then Again(StartMonitor)
    else if p == MONITOR_STARTED then Observe
    else if p == MONITOR_WRITE_OBSERVED then Plain(COMPLETED)
    else Stuck
  }

  /** Facts the forward loop demands of the active configuration before it acts. */
  predicate ExternalFactsOk(s: Sys) {
    var p := s.store.main.phase;
    && (p < ENV_SWITCH_STARTED ==> s.world.env == Original)
    && (ENV_SWITCHED <= p <= MONITOR_WRITE_OBSERVED ==>
          && s.world.env == Staged
          && (p != WATCHLIST_SWITCH_STARTED ==>
                s.world.watchlist == if s.store.main.watchlistWasSwitched then Staged else Original))
  }

  function SkipFacts(r: Record): Facts {
    NO_FACTS.(auth := Set(r.auth.(protectionSkip := true)), protectionStatus := Set(ProtectionSkipped))
  }

  function SkipStep(m: Machine, cfg: Config): Machine {
    var m1 := CrashPoint(LeaseFacts(m, SkipFacts(m.sys.store.main)), cfg, PROTECTION_BACKUP_SKIPPED, AfterFacts);
    CrashPoint(LeaseAdvance(m1, PROTECTION_BACKUP_SKIPPED), cfg, PROTECTION_BACKUP_SKIPPED, AfterIntent)
  }

  function WatchlistFacts(r: Record): Facts {
    NO_FACTS.(auth := Set(r.auth.(watchlistSwitch := true)), watchlistAuthorized := Set(true))
  }

  function AfterEnvStep(m: Machine, cfg: Config): Machine {
    if cfg.watchlistSwitch then Step(LeaseFacts(m, WatchlistFacts(m.sys.store.main)), cfg, SwitchWatchlist)
    else LeaseAdvance(m, CONFIG_SWITCHED)
  }

  function AuthorizeFacts(r: Record): Facts {
    NO_FACTS.(auth := Set(r.auth.(monitorStart := true)), generation := Set(Some(GENERATION)), baseline := Set(Some(BASELINE)))
  }

  function AuthorizeStep(m: Machine, cfg: Config): Machine {
    var m1 := CrashPoint(LeaseFacts(m, AuthorizeFacts(m.sys.store.main)), cfg, MONITOR_START_AUTHORIZED, AfterFacts);
    CrashPoint(LeaseAdvance(m1, MONITOR_START_AUTHORIZED), cfg, MONITOR_START_AUTHORIZED, AfterIntent)
  }

  /** The time stamp of the observation; only its presence matters. */
  const OBSERVED_AT := 0

  function ObserveFacts(seen: bool): Facts {
    NO_FACTS.(firstWrite := Set(if seen then Yes else No), firstWriteAt := Set(Some(OBSERVED_AT)))
  }

  function ObserveStep(m: Machine, cfg: Config): Machine {
    var seen := m.sys.world.writeObserved;
    var m1 := Perform(m, ObserveMonitor, cfg.failures);
    var m2 := LeaseFacts(m1, ObserveFacts(seen));
    var m3 := if seen then LeaseAdvance(m2, MONITOR_WRITE_OBSERVED) else m2;
    LeaseAdvance(m3, COMPLETED)
  }

  function Act(m: Machine, cfg: Config, a: Action): Machine {
    match a
    case Fresh(op) => Step(m, cfg, op)
    case Again(op) => Resume(m, cfg, op)
    case SkipProtection => SkipStep(m, cfg)
    case AfterEnv => AfterEnvStep(m, cfg)
    case AuthorizeMonitor => AuthorizeStep(m, cfg)
    case Observe => ObserveStep(m, cfg)
    case Plain(target) => LeaseAdvance(m, target)
    case Stuck => Raise(m, RecordFailed(PhaseInvalid))
  }

  function ForwardIteration(m: Machine, cfg: Config): Machine
    requires m.flow == Live
  {
    if !ExternalFactsOk(m.sys) then Raise(m, ActionFailed(ExternalFactUnknown))
    else Act(m, cfg, ForwardAction(m.sys.store.main.phase, cfg))
  }

  function ForwardLoop(m: Machine, cfg: Config): Machine
    decreases if m.flow == Live then 43 - m.sys.store.main.phase else 0
  {
    if m.flow != Live || m.sys.store.main.phase == COMPLETED then m
    else
      IterationClimbs(m, cfg);
      ForwardLoop(ForwardIteration(m, cfg), cfg)
  }

  // ---------------------------------------------------------------- rollback

  function RollbackAction(r: Record): Action {
    var p := r.phase;
    if p == ROLLBACK_STARTED then Again(RollbackStopMonitor)
    else if p == ROLLBACK_MONITOR_STOPPED then Fresh(RollbackStopApp)
    else if p == ROLLBACK_APPLICATION_STOP_STARTED then Again(RollbackStopApp)
    else if p == ROLLBACK_APPLICATION_STOPPED then Fresh(RollbackEnv)
    else if p == ROLLBACK_ENV_STARTED then Again(RollbackEnv)
    else if p == ROLLBACK_ENV_COMPLETED then Fresh(if r.watchlistWasSwitched then RollbackWatchlist else StartOriginal)
    else if p == ROLLBACK_WATCHLIST_STARTED then Again(RollbackWatchlist)
    else if p == ROLLBACK_WATCHLIST_COMPLETED then Fresh(StartOriginal)
    else if p == ROLLBACK_APPLICATION_START_STARTED then Again(StartOriginal)
    else if p == ROLLBACK_APPLICATION_STARTED then Fresh(CheckOriginal)
    else if p == ROLLBACK_READINESS_STARTED then Again(CheckOriginal)
    else if p == ROLLBACK_READINESS_PASSED then Plain(ROLLED_BACK)
    else Stuck
  }

  function RollbackLoop(m: Machine, cfg: Config): Machine
    decreases if m.flow == Live then 43 - m.sys.store.main.phase else 0
  {
    if m.flow != Live || m.sys.store.main.phase == ROLLED_BACK then m
    else
      ActClimbs(m, cfg, RollbackAction(m.sys.store.main));
      RollbackLoop(Act(m, cfg, RollbackAction(m.sys.store.main)), cfg)
  }

  // ---------------------------------------------------------------- termination

  lemma AdvanceClimbs(m: Machine, t: Phase)
    ensures LeaseAdvance(m, t).flow == Live ==> m.flow == Live && m.sys.store.main.phase < t == LeaseAdvance(m, t).sys.store.main.phase
  {
  }

  lemma FactsStay(m: Machine, f: Facts)
    ensures LeaseFacts(m, f).flow == Live ==> m.flow == Live && LeaseFacts(m, f).sys.store.main.phase == m.sys.store.main.phase
  {
  }

  lemma PerformStays(m: Machine, op: Op, failures: set<Op>)
    ensures Perform(m, op, failures).flow == Live ==> m.flow == Live
    ensures Perform(m, op, failures).sys.store == m.sys.store
  {
  }

  lemma FinishClimbs(m: Machine, op: Op)
    ensures Finish(m, op).flow == Live ==>
              m.flow == Live && m.sys.store.main.phase < Finish(m, op).sys.store.main.phase == Outcome(op)
  {
    var m1 := if op == ProtectConfig then LeaseFacts(m, ProtectedResources(m.sys.store.main)) else m;
    FactsStay(m, ProtectedResources(m.sys.store.main));
    FactsStay(m1, Report(op));
    AdvanceClimbs(FactsIfAny(m1, Report(op)), Outcome(op));
  }

  lemma ActAndFinishClimbs(m: Machine, cfg: Config, op: Op, p: Phase)
    ensures ActAndFinish(m, cfg, op, p).flow == Live ==>
              m.flow == Live && m.sys.store.main.phase < ActAndFinish(m, cfg, op, p).sys.store.main.phase == Outcome(op)
  {
    PerformStays(m, op, cfg.failures);
    FinishClimbs(CrashPoint(Perform(m, op, cfg.failures), cfg, p, AfterAction), op);
  }

  lemma StepClimbs(m: Machine, cfg: Config, op: Op)
    ensures Step(m, cfg, op).flow == Live ==>
              m.flow == Live && m.sys.store.main.phase < Step(m, cfg, op).sys.store.main.phase == Outcome(op)
  {
    AdvanceClimbs(m, Intent(op));
    ActAndFinishClimbs(CrashPoint(LeaseAdvance(m, Intent(op)), cfg, Intent(op), AfterIntent), cfg, op, Intent(op));
  }

  lemma ResumeClimbs(m: Machine, cfg: Config, op: Op)
    ensures Resume(m, cfg, op).flow == Live ==>
              m.flow == Live && m.sys.store.main.phase < Resume(m, cfg, op).sys.store.main.phase == Outcome(op)
  {
    FinishClimbs(m, op);
    ActAndFinishClimbs(m, cfg, op, m.sys.store.main.phase);
  }

  lemma SkipClimbs(m: Machine, cfg: Config)
    ensures SkipStep(m, cfg).flow == Live ==>
              m.flow == Live && m.sys.store.main.phase < SkipStep(m, cfg).sys.store.main.phase == PROTECTION_BACKUP_SKIPPED
  {
  }

  lemma AfterEnvClimbs(m: Machine, cfg: Config)
    ensures AfterEnvStep(m, cfg).flow == Live ==>
              m.flow == Live && m.sys.store.main.phase < AfterEnvStep(m, cfg).sys.store.main.phase == (if cfg.watchlistSwitch then WATCHLIST_SWITCHED else CONFIG_SWITCHED)
  {
    var f := WatchlistFacts(m.sys.store.main);
    FactsStay(m, f);
    if cfg.watchlistSwitch { StepClimbs(LeaseFacts(m, f), cfg, SwitchWatchlist); } else { AdvanceClimbs(m, CONFIG_SWITCHED); }
  }

  lemma AuthorizeClimbs(m: Machine, cfg: Config)
    ensures AuthorizeStep(m, cfg).flow == Live ==>
              m.flow == Live && m.sys.store.main.phase < AuthorizeStep(m, cfg).sys.store.main.phase == MONITOR_START_AUTHORIZED
  {
  }

  lemma ObserveClimbs(m: Machine, cfg: Config)
    ensures ObserveStep(m, cfg).flow == Live ==>
              m.flow == Live && m.sys.store.main.phase < ObserveStep(m, cfg).sys.store.main.phase == COMPLETED
  {
    var f := ObserveFacts(m.sys.world.writeObserved);
    var m1 := Perform(m, ObserveMonitor, cfg.failures);
    PerformStays(m, ObserveMonitor, cfg.failures);
    FactsStay(m1, f);
    AdvanceClimbs(LeaseFacts(m1, f), MONITOR_WRITE_OBSERVED);
    AdvanceClimbs(LeaseAdvance(LeaseFacts(m1, f), MONITOR_WRITE_OBSERVED), COMPLETED);
    AdvanceClimbs(LeaseFacts(m1, f), COMPLETED);
  }

  /** Whatever an action does, if the machine is still live its phase has climbed. */
  lemma ActClimbs(m: Machine, cfg: Config, a: Action)
    ensures Act(m, cfg, a).flow == Live ==> m.flow == Live && m.sys.store.main.phase < Act(m, cfg, a).sys.store.main.phase
  {
    match a
    case Fresh(op) => StepClimbs(m, cfg, op);
    case Again(op) => ResumeClimbs(m, cfg, op);
    case SkipProtection => SkipClimbs(m, cfg);
    case AfterEnv => AfterEnvClimbs(m, cfg);
    case AuthorizeMonitor => AuthorizeClimbs(m, cfg);
    case Observe => ObserveClimbs(m, cfg);
    case Plain(target) => AdvanceClimbs(m, target);
    case Stuck =>
  }

  lemma IterationClimbs(m: Machine, cfg: Config)
    requires m.flow == Live
    ensures ForwardIteration(m, cfg).flow == Live ==>
              m.sys.store.main.phase < ForwardIteration(m, cfg).sys.store.main.phase
  {
    ActClimbs(m, cfg, ForwardAction(m.sys.store.main.phase, cfg));
  }

  // ---------------------------------------------------------------- whole calls

  function ActionCode(a: ActionError): ErrorCode {
    match a
    case ConfigIdentityUnknown => ManualReconciliationRequired
    case WatchlistIdentityUnknown => ManualReconciliationRequired
    case ExternalFactUnknown => ManualReconciliationRequired
    case OperationFailed(op) =>
      (match op
       case Verify => VerificationFailed
       case CheckReplacement => ReadinessFailed
       case StopServices => ServiceStopFailed
       case Restore => RestoreFailed
       case _ => TargetInvalid)
    case _ => TargetInvalid
  }

  /** What run() records about a failed action. */
  function FailureFacts(r: Record, code: ErrorCode): Facts {
    var f := NO_FACTS.(lastError := Set(Some(code)), retryable := Set(code != ManualReconciliationRequired));
    var f1 := if code == ManualReconciliationRequired then f.(manual := Set(true)) else f;
    if r.phase == VERIFICATION_STARTED
    then f1.(verification := Set(Failed), verificationError := Set(Some(VerificationFailed))) else f1
  }

  function ManualFacts(code: ErrorCode): Facts {
    NO_FACTS.(manual := Set(true), lastError := Set(Some(code)), retryable := Set(false))
  }

  /** A failure handler that has written its facts returns a verdict; one that raises lets the error out. */
  function Settle(m: Machine, v: Verdict): (Sys, Verdict) {
    (m.sys, match m.flow
            case Live => v
            case Died => Crashed
            case Raised(e) => Escaped(e))
  }

  function RunHandler(m: Machine): (Sys, Verdict) {
    match m.flow
    case Live => (m.sys, Pass)
    case Died => (m.sys, Crashed)
    case Raised(e) =>
      var live := m.(flow := Live);
      (match e
       case ActionFailed(a) =>
         Settle(LeaseFacts(live, FailureFacts(m.sys.store.main, ActionCode(a))), Fail(ActionCode(a)))
       case RecordFailed(code) =>
         Settle(if code == ManualReconciliationRequired then LeaseFacts(live, ManualFacts(code)) else live, Fail(code)))
  }

  function Run(s: Sys, cfg: Config, life: Lifetime): (Sys, Verdict) {
    RunHandler(ForwardLoop(Machine(s, life, Live), cfg))
  }

  function RollbackHandler(m: Machine): (Sys, Verdict) {
    match m.flow
    case Live => (m.sys, Pass)
    case Died => (m.sys, Crashed)
    case Raised(e) =>
      var live := m.(flow := Live);
      (match e
       case ActionFailed(a) =>
         if ActionCode(a) == ManualReconciliationRequired
         then Settle(LeaseFacts(live, ManualFacts(ManualReconciliationRequired)), Partial(Some(ManualReconciliationRequired)))
         else Settle(live, Fail(RollbackFailed))
       case RecordFailed(code) => Settle(live, Fail(code)))
  }

  function EnterRollback(m: Machine, cfg: Config): Machine {
    if ROLLBACK_STARTED <= m.sys.store.main.phase <= ROLLBACK_READINESS_PASSED then m
    else CrashPoint(LeaseAdvance(m, ROLLBACK_STARTED), cfg, ROLLBACK_STARTED, AfterIntent)
  }

  function Rollback(s: Sys, cfg: Config, life: Lifetime): (Sys, Verdict) {
    var m := Machine(s, life, Live);
    if MONITOR_START_STARTED <= s.store.main.phase <= COMPLETED then
      Settle(LeaseFacts(m, NO_FACTS.(manual := Set(true), lastError := Set(Some(ManualReconciliationRequired)))), Partial(None))
    else
      RollbackHandler(RollbackLoop(EnterRollback(m, cfg), cfg))
  }

  // ---------------------------------------------------------------- cleanup

  /** The child's id is a digest of the incident id: some injective function of it. */
  function CleanupIdOf(incidentId: string): string {
    incidentId + ":replacement-cleanup"
  }

  function ExpectedChild(r: Record): Child {
    Child(CleanupIdOf(r.incidentId), r.incidentId, r.resources.fixed.replacementDatabase, r.resources.fixed.replacementToken,
          r.resources.fixed.expectedOwner, r.lockIdentity, CleanupPlanned, false, None)
  }

  predicate CleanupEligible(s: Sys) {
    var r := s.store.main;
    && s.world.env != Staged
    && (r.replacementActivated ==> r.phase == ROLLED_BACK)
    && (r.phase == ROLLED_BACK || ((r.phase == RESTORE_STARTED || r.phase == VERIFICATION_STARTED) && !r.replacementActivated))
  }

  function RequestFacts(r: Record): Facts {
    NO_FACTS.(cleanupRequested := Set(true), cleanupId := Set(Some(CleanupIdOf(r.incidentId))))
  }

  function Request(m: Machine): Machine {
    if m.flow != Live then m
    else if !CleanupEligible(m.sys) then Raise(m, RecordFailed(CleanupForbidden))
    else
      var id := CleanupIdOf(m.sys.store.main.incidentId);
      var newly := !m.sys.store.main.cleanupRequested;
      var m1 := if newly then LeaseFacts(m, RequestFacts(m.sys.store.main)) else m;
      if m1.flow != Live then m1
      else if m1.sys.store.main.cleanupId != Some(id) then Raise(m1, RecordFailed(CleanupIdentityInvalid))
      else
        var child := ReadChild(m1.sys.store);
        if newly || child == Err(RecordInvalid) then Persist(m1, CreateChild(m1.sys.store, ExpectedChild(m1.sys.store.main)))
        else if child.Err? then Raise(m1, RecordFailed(child.error))
        else m1
  }

  function Drop(m: Machine): Machine {
    if m.flow != Live then m
    else if m.sys.world.env == Staged then Raise(m, RecordFailed(CleanupForbidden))
    else Commit(m, m.sys.(world := Handle(m.sys.world, CleanupDrop).value))
  }

  function ChildPhase(m: Machine): CleanupPhase {
    if m.sys.store.child.Some? then m.sys.store.child.value.phase else CleanupPlanned
  }

  function StartChild(m: Machine): Machine {
    if m.flow == Live && ChildPhase(m) == CleanupPlanned then Persist(m, AdvanceStoredChild(m.sys.store, CleanupStarted)) else m
  }

  function DropOnce(m: Machine): Machine {
    if m.flow == Live && ChildPhase(m) == CleanupStarted && m.sys.store.child.Some? && !m.sys.store.child.value.dropObserved then
      var m1 := if m.sys.world.created then Drop(m) else m;
      Persist(m1, UpdateChildFacts(m1.sys.store, Set(true), Keep))
    else m
  }

  function CompleteChild(m: Machine): Machine {
    if m.flow == Live && ChildPhase(m) == CleanupStarted then Persist(m, AdvanceStoredChild(m.sys.store, CleanupCompleted)) else m
  }

  function CompleteCleanup(m: Machine): Machine {
    if m.flow != Live then m
    else if ChildPhase(m) != CleanupCompleted || m.sys.store.child.None? || !m.sys.store.child.value.dropObserved
    then Raise(m, RecordFailed(CleanupNotCompleted))
    else LeaseFacts(m, NO_FACTS.(cleanupCompleted := Set(true)))
  }

  function Execute(m: Machine): Machine {
    CompleteCleanup(CompleteChild(DropOnce(StartChild(Request(m)))))
  }

  function Cleanup(s: Sys, life: Lifetime): (Sys, Verdict) {
    Settle(Execute(Machine(s, life, Live)), Pass)
  }

  // ---------------------------------------------------------------- sequences of calls

  datatype Call =
    | CallRun(cfg: Config, life: Lifetime)
    | CallRollback(cfg: Config, life: Lifetime)
    | CallRequest(life: Lifetime)
    | CallCleanup(life: Lifetime)
    | MonitorWrites

  /** One whole call, cut wherever its life ends; the running monitor may also write on its own. */
  function Do(s: Sys, c: Call): Sys {
    match c
    case CallRun(cfg, life) => Run(s, cfg, life).0
    case CallRollback(cfg, life) => Rollback(s, cfg, life).0
    case CallRequest(life) => Request(Machine(s, life, Live)).sys
    case CallCleanup(life) => Cleanup(s, life).0
    case MonitorWrites => s.(world := s.world.(writeObserved := true))
  }

  function DoAll(s: Sys, calls: seq<Call>): Sys
    decreases |calls|
  {
    if calls == [] then s else DoAll(Do(s, calls[0]), calls[1..])
  }
}
