/**
 Progress of single steps: which statements of the protocol cannot raise, so that an
 immortal owner with nothing failing goes through a whole step.
 */
module RecoveryConvergence {
  import opened Wrappers
  import opened RecoveryModels
  import opened RecoveryRecord
  import opened RecoveryWorld
  import opened RecoveryProtocol
  import opened RecoverySafety
  import opened RecoveryTheorems

  /** Nothing fails, and no crash is injected at this phase. */
  predicate Calm(cfg: Config, p: Phase) {
    cfg.failures == {} && (cfg.crash.Some? ==> cfg.crash.value.phase != p)
  }

  /** The machine goes on: it does not raise, and an immortal process that is not crashed stays live. */
  predicate Smooth(m: Machine, m': Machine, calm: bool) {
    && !m'.flow.Raised?
    && (m'.flow == Live ==> m.flow == Live)
    && (m.life == Immortal ==> m'.life == Immortal)
    && (m.flow == Live && m.life == Immortal && calm ==> m'.flow == Live)
  }

  // ---------------------------------------------------------------- statements that cannot fail

  /** The facts an operation reports would be accepted: neither a settled skip nor a settled verdict is in the way. */
  predicate ReportFits(r: Record, op: Op) {
    && (op == ProtectionBackup ==> r.protectionStatus != ProtectionSkipped)
    && (op == Verify ==> r.verification == NotStarted)
  }

  lemma ReportAccepted(s: Sys, op: Op)
    requires ValidRecord(s.store.main) && RecordShape(s.store.main)
    requires s.store.main.phase == Intent(op) && ReportFits(s.store.main, op)
    ensures Report(op) != NO_FACTS ==> UpdateFacts(s.store, Report(op)).Ok?
  {
    match op
    case ProtectionBackup => ProtectionAccepted(s);
    case StopServices => StopAccepted(s, op);
    case RollbackStopMonitor => StopAccepted(s, op);
    case RollbackStopApp => StopAccepted(s, op);
    case Verify => VerdictAccepted(s);
    case SwitchEnv => SwitchAccepted(s, op);
    case SwitchWatchlist => SwitchAccepted(s, op);
    case _ =>
  }

  lemma ProtectionAccepted(s: Sys)
    requires ValidRecord(s.store.main) && s.store.main.protectionStatus != ProtectionSkipped
    requires NoneOr(s.store.main.protection.backupId, PROTECTION_ID)
    requires NoneOr(s.store.main.protection.manifest, PROTECTION_MANIFEST)
    requires NoneOr(s.store.main.protection.dump, PROTECTION_DUMP)
    requires NoneOr(s.store.main.protection.watchlist, PROTECTION_WATCHLIST)
    ensures UpdateFacts(s.store, Report(ProtectionBackup)).Ok?
  {
    ProtectionAllowed(s.store.main);
    ProtectionValid(s.store.main);
  }

  lemma ProtectionAllowed(r: Record)
    requires r.protectionStatus != ProtectionSkipped
    requires NoneOr(r.protection.backupId, PROTECTION_ID) && NoneOr(r.protection.manifest, PROTECTION_MANIFEST)
    requires NoneOr(r.protection.dump, PROTECTION_DUMP) && NoneOr(r.protection.watchlist, PROTECTION_WATCHLIST)
    ensures FactsAllowed(r, Report(ProtectionBackup))
  {
  }

  lemma ProtectionValid(r: Record)
    requires ValidRecord(r)
    ensures ValidRecord(Applied(r, Report(ProtectionBackup)))
  {
  }

  lemma StopAccepted(s: Sys, op: Op)
    requires ValidRecord(s.store.main)
    requires op == StopServices || op == RollbackStopMonitor || op == RollbackStopApp
    ensures UpdateFacts(s.store, Report(op)).Ok?
  {
  }

  lemma VerdictAccepted(s: Sys)
    requires ValidRecord(s.store.main)
    requires s.store.main.phase == VERIFICATION_STARTED && s.store.main.verification == NotStarted
    ensures UpdateFacts(s.store, Report(Verify)).Ok?
  {
  }

  lemma SwitchAccepted(s: Sys, op: Op)
    requires ValidRecord(s.store.main) && s.store.main.phase != PLANNED
    requires op == SwitchEnv || op == SwitchWatchlist
    ensures UpdateFacts(s.store, Report(op)).Ok?
  {
  }

  lemma ProtectedAccepted(s: Sys)
    requires StoreInv(s.store) && RecordShape(s.store.main) && s.store.main.phase == CONFIG_PROTECTION_STARTED
    ensures UpdateFacts(s.store, ProtectedResources(s.store.main)).Ok?
  {
  }

  /** What the report of an operation puts into the record. */
  lemma ReportEstablishes(r: Record, op: Op)
    requires ReportFits(r, op)
    ensures var r' := Applied(r, Report(op));
            && r'.phase == r.phase
            && (op == ProtectionBackup ==> r'.protectionStatus == ProtectionDone && r'.protection.backupId.Some?)
            && (op == Verify ==> r'.verification == Passed)
            && (op == StopServices ==>
                  r'.monitorStopped == Yes && r'.leaseFree == Yes && r'.applicationStopped == Yes && r'.connectionsDrained == Yes)
            && (op == SwitchEnv ==> r'.replacementActivated)
            && (op == SwitchWatchlist ==> r'.watchlistWasSwitched)
  {
  }

  /** Which outcome phases the advance guards, and by which operation they are reached. */
  lemma OutcomesGuarded(op: Op)
    requires op != CleanupDrop && op != ObserveMonitor
    ensures var t := Outcome(op);
            && t == Intent(op) + 1 && t != ROLLBACK_STARTED && CanFollow(Intent(op), t) && t != PLANNED
            && (t == VERIFICATION_COMPLETED ==> op == Verify)
            && (t == SERVICES_STOPPED ==> op == StopServices)
            && t != PROTECTION_BACKUP_SKIPPED
            && (t == PROTECTION_BACKUP_COMPLETED ==> op == ProtectionBackup)
            && (t == ENV_SWITCHED ==> op == SwitchEnv)
            && (t == WATCHLIST_SWITCHED ==> op == SwitchWatchlist)
            && t != MONITOR_START_AUTHORIZED && t != MONITOR_START_STARTED && t != COMPLETED
            && Intent(op) != ENV_SWITCHED && Intent(op) != ROLLBACK_ENV_COMPLETED
  {
  }

  lemma OutcomeAccepted(s: Sys, r: Record, op: Op)
    requires ValidRecord(s.store.main) && Rehearsed(r, op) && ReportFits(r, op)
    requires r.phase == Intent(op) && s.store.main == Applied(r, Report(op))
    ensures Advance(s.store, Outcome(op)).Ok?
  {
    ReportEstablishes(r, op);
    OutcomesGuarded(op);
  }

  /** No intent is one of the guarded phases, except the intent to start the monitor. */
  lemma IntentsAreUnguarded(op: Op)
    requires op != CleanupDrop
    ensures var t := Intent(op);
            && t != VERIFICATION_COMPLETED && t != SERVICES_STOPPED && t != PROTECTION_BACKUP_SKIPPED
            && t != PROTECTION_BACKUP_COMPLETED && t != ENV_SWITCHED && t != WATCHLIST_SWITCHED
            && t != MONITOR_START_AUTHORIZED && t != COMPLETED && t != CONFIG_SWITCHED && t != PLANNED
            && (t == MONITOR_START_STARTED ==> op == StartMonitor)
            && (t == ROLLBACK_WATCHLIST_STARTED ==> op == RollbackWatchlist)
            && (t == ROLLBACK_APPLICATION_START_STARTED ==> op == StartOriginal)
  {
  }

  lemma IntentAccepted(s: Sys, op: Op)
    requires ValidRecord(s.store.main) && RecordShape(s.store.main)
    requires CanFollow(s.store.main.phase, Intent(op)) && Intent(op) != ROLLBACK_STARTED
    requires op != CleanupDrop && op != ObserveMonitor
    requires s.store.main.phase == ENV_SWITCHED ==> s.store.main.watchlistAuthorized
    requires s.store.main.phase == ROLLBACK_ENV_COMPLETED ==>
               op == if s.store.main.watchlistWasSwitched then RollbackWatchlist else StartOriginal
    ensures Advance(s.store, Intent(op)).Ok?
  {
    IntentsAreUnguarded(op);
  }

  lemma HandlerAccepts(s: Sys, op: Op)
    requires WorldMatches(s.store.main, s.world)
    requires s.store.main.phase == Intent(op) && Rehearsed(s.store.main, op)
    requires s.world.effects[CleanupDrop] == 0
    ensures Handle(s.world, op).Ok? && StatusOf(s.world, op) != Unclear
  {
  }

  // ---------------------------------------------------------------- steps

  lemma FactsSmooth(m: Machine, f: Facts)
    requires !m.flow.Raised? && (m.flow == Live ==> UpdateFacts(m.sys.store, f).Ok?)
    ensures Smooth(m, LeaseFacts(m, f), true)
  {
  }

  lemma AdvanceSmooth(m: Machine, target: Phase)
    requires !m.flow.Raised? && (m.flow == Live ==> Advance(m.sys.store, target).Ok?)
    ensures Smooth(m, LeaseAdvance(m, target), true)
  {
  }

  lemma PerformSmooth(m: Machine, op: Op, failures: set<Op>)
    requires !m.flow.Raised? && failures == {} && (m.flow == Live ==> Handle(m.sys.world, op).Ok?)
    ensures Smooth(m, Perform(m, op, failures), true)
  {
  }

  /** Under its durable intent, an operation is open, acceptable and reportable. */
  predicate Prepared(m: Machine, op: Op) {
    && SysInv(m.sys) && !m.flow.Raised?
    && (m.flow == Live ==>
          && Rehearsed(m.sys.store.main, op) && ReadyFor(m.sys, op)
          && ReportFits(m.sys.store.main, op) && m.sys.world.effects[CleanupDrop] == 0)
  }

  /** It has taken effect and waits to be recorded. */
  predicate Performed(m: Machine, op: Op) {
    && SysInv(m.sys) && !m.flow.Raised?
    && (m.flow == Live ==>
          && Rehearsed(m.sys.store.main, op) && m.sys.store.main.phase == Intent(op)
          && StatusOf(m.sys.world, op) == Done && ReportFits(m.sys.store.main, op))
  }

  lemma FinishSmooth(m: Machine, op: Op)
    requires Performed(m, op)
    ensures Smooth(m, Finish(m, op), true)
  {
    var m1 := if op == ProtectConfig then LeaseFacts(m, ProtectedResources(m.sys.store.main)) else m;
    var m2 := FactsIfAny(m1, Report(op));
    if op == ProtectConfig {
      if m.flow == Live { ProtectedAccepted(m.sys); }
      FactsSmooth(m, ProtectedResources(m.sys.store.main));
      FactsKeep(m, ProtectedResources(m.sys.store.main));
    }
    if m1.flow == Live {
      ReportAccepted(m1.sys, op);
      ReportIsHonest(m1.sys, op);
    }
    if Report(op) != NO_FACTS { FactsSmooth(m1, Report(op)); }
    FactsIfAnyKeep(m1, Report(op));
    if m2.flow == Live { OutcomeAccepted(m2.sys, m1.sys.store.main, op); }
    AdvanceSmooth(m2, Outcome(op));
  }

  lemma CrashPointKeeps(m: Machine, op: Op, cfg: Config, p: Phase, moment: Moment)
    ensures Prepared(m, op) ==> Prepared(CrashPoint(m, cfg, p, moment), op)
    ensures Performed(m, op) ==> Performed(CrashPoint(m, cfg, p, moment), op)
    ensures !m.flow.Raised? ==> Smooth(m, CrashPoint(m, cfg, p, moment), Calm(cfg, p))
  {
  }

  lemma SmoothTransitive(a: Machine, b: Machine, c: Machine, calm: bool)
    requires Smooth(a, b, calm) && Smooth(b, c, calm)
    ensures Smooth(a, c, calm)
  {
  }

  lemma PerformGoes(m: Machine, op: Op, failures: set<Op>)
    requires Prepared(m, op) && failures == {}
    ensures Smooth(m, Perform(m, op, failures), true) && Performed(Perform(m, op, failures), op)
  {
    if m.flow == Live { HandlerAccepts(m.sys, op); }
    PerformSmooth(m, op, failures);
    PerformKeeps(m, op, failures);
  }

  lemma ActAndFinishSmooth(m: Machine, cfg: Config, op: Op, p: Phase)
    requires Prepared(m, op) && cfg.failures == {}
    ensures Smooth(m, ActAndFinish(m, cfg, op, p), Calm(cfg, p))
  {
    var m1 := Perform(m, op, cfg.failures);
    var m2 := CrashPoint(m1, cfg, p, AfterAction);
    PerformGoes(m, op, cfg.failures);
    CrashPointKeeps(m1, op, cfg, p, AfterAction);
    FinishSmooth(m2, op);
    SmoothTransitive(m, m1, m2, Calm(cfg, p));
    SmoothTransitive(m, m2, Finish(m2, op), Calm(cfg, p));
  }

  /** A fresh step the loop may take: the table allows its intent and nothing stands in its way. */
  predicate Startable(m: Machine, op: Op) {
    && SysInv(m.sys) && !m.flow.Raised?
    && (m.flow == Live ==>
          && Suits(m.sys, Fresh(op)) && Advance(m.sys.store, Intent(op)).Ok?
          && ReportFits(m.sys.store.main, op) && m.sys.world.effects[CleanupDrop] == 0)
  }

  lemma IntentGoes(m: Machine, op: Op)
    requires Startable(m, op)
    ensures Smooth(m, LeaseAdvance(m, Intent(op)), true) && Prepared(LeaseAdvance(m, Intent(op)), op)
  {
    AdvanceSmooth(m, Intent(op));
    AdvanceKeeps(m, Intent(op));
    StepOpens(m, op);
  }

  lemma StepSmooth(m: Machine, cfg: Config, op: Op)
    requires Startable(m, op) && cfg.failures == {}
    ensures Smooth(m, Step(m, cfg, op), Calm(cfg, Intent(op)))
  {
    var m1 := LeaseAdvance(m, Intent(op));
    var m2 := CrashPoint(m1, cfg, Intent(op), AfterIntent);
    IntentGoes(m, op);
    CrashPointKeeps(m1, op, cfg, Intent(op), AfterIntent);
    ActAndFinishSmooth(m2, cfg, op, Intent(op));
    SmoothTransitive(m, m1, m2, Calm(cfg, Intent(op)));
    SmoothTransitive(m, m2, Step(m, cfg, op), Calm(cfg, Intent(op)));
  }

  lemma ResumeSmooth(m: Machine, cfg: Config, op: Op)
    requires SysInv(m.sys) && m.flow == Live && cfg.failures == {}
    requires Suits(m.sys, Again(op)) && ReportFits(m.sys.store.main, op) && m.sys.world.effects[CleanupDrop] == 0
    ensures Smooth(m, Resume(m, cfg, op), Calm(cfg, m.sys.store.main.phase))
  {
    ResumeReady(m, op);
    if StatusOf(m.sys.world, op) == Pending {
      ActAndFinishSmooth(m, cfg, op, m.sys.store.main.phase);
    } else {
      FinishSmooth(m, op);
    }
  }

  lemma ResumeReady(m: Machine, op: Op)
    requires SysInv(m.sys) && m.flow == Live
    requires Suits(m.sys, Again(op)) && ReportFits(m.sys.store.main, op) && m.sys.world.effects[CleanupDrop] == 0
    ensures StatusOf(m.sys.world, op) != Unclear
    ensures if StatusOf(m.sys.world, op) == Pending then Prepared(m, op) else Performed(m, op)
  {
    HandlerAccepts(m.sys, op);
    if StatusOf(m.sys.world, op) == Pending { PendingIsReady(m.sys, op); }
  }
}
