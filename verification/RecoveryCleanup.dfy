/**
 Cleanup convergence: exactly when an uninterrupted cleanup completes, and that a cleanup
 cut at any effect can be executed again while the incident stays eligible.
 */
module RecoveryCleanup {
  import opened Wrappers
  import opened RecoveryModels
  import opened RecoveryRecord
  import opened RecoveryWorld
  import opened RecoveryProtocol
  import opened RecoverySafety
  import opened RecoveryTheorems

  /** An immortal coordinator in an eligible incident. */
  predicate Cleaning(m: Machine) {
    SysInv(m.sys) && CleanupEligible(m.sys) && m.flow == Live && m.life == Immortal
  }

  predicate CleaningChild(m: Machine, phase: CleanupPhase) {
    && Cleaning(m) && m.sys.store.main.cleanupId.Some?
    && m.sys.store.child.Some? && m.sys.store.child.value.phase == phase
  }

  lemma RequestFactsGo(m: Machine)
    requires Cleaning(m) && !m.sys.store.main.cleanupRequested
    ensures var m' := LeaseFacts(m, RequestFacts(m.sys.store.main));
            Cleaning(m') && m'.sys.store.main.cleanupRequested && m'.sys.store.child.None?
            && m'.sys.store.main.cleanupId == Some(CleanupIdOf(m.sys.store.main.incidentId))
            && m'.sys.store.main.incidentId == m.sys.store.main.incidentId
  {
    RequestFactsAccepted(m.sys.store);
    RequestFactsKeep(m);
  }

  lemma RequestFactsAccepted(s: Store)
    requires ValidRecord(s.main) && NoneOr(s.main.cleanupId, CleanupIdOf(s.main.incidentId))
    ensures UpdateFacts(s, RequestFacts(s.main)).Ok?
  {
  }

  lemma CreateGoes(m: Machine)
    requires Cleaning(m) && m.sys.store.main.cleanupRequested && m.sys.store.child.None?
    ensures var m' := Persist(m, CreateChild(m.sys.store, ExpectedChild(m.sys.store.main)));
            CleaningChild(m', CleanupPlanned) && m'.sys.world == m.sys.world
  {
  }

  lemma RequestGoes(m: Machine)
    requires Cleaning(m)
    ensures Cleaning(Request(m)) && CleaningChild(Request(m), ChildPhase(Request(m))) && Request(m).sys.world == m.sys.world
  {
    RequestKeeps(m);
    if !m.sys.store.main.cleanupRequested {
      RequestFactsGo(m);
      CreateGoes(LeaseFacts(m, RequestFacts(m.sys.store.main)));
    } else if m.sys.store.child.None? {
      CreateGoes(m);
    }
  }

  lemma StartGoes(m: Machine)
    requires CleaningChild(m, ChildPhase(m))
    ensures var m' := StartChild(m); CleaningChild(m', ChildPhase(m')) && ChildPhase(m') != CleanupPlanned
  {
  }

  lemma DropFactGoes(m: Machine)
    requires CleaningChild(m, CleanupStarted) && !m.sys.store.child.value.dropObserved && !m.sys.world.created
    ensures var m' := Persist(m, UpdateChildFacts(m.sys.store, Set(true), Keep));
            CleaningChild(m', CleanupStarted) && m'.sys.store.child.value.dropObserved
  {
  }

  lemma DropGoes(m: Machine)
    requires CleaningChild(m, ChildPhase(m)) && ChildPhase(m) != CleanupPlanned
    ensures var m' := DropOnce(m);
            && CleaningChild(m', ChildPhase(m')) && ChildPhase(m') == ChildPhase(m) && m'.sys.store.child.value.dropObserved
  {
    if ChildPhase(m) == CleanupStarted && !m.sys.store.child.value.dropObserved {
      if m.sys.world.created {
        DropMachineKeeps(m);
        DropFactGoes(Drop(m));
      } else {
        DropFactGoes(m);
      }
    }
  }

  lemma CompleteGoes(m: Machine)
    requires CleaningChild(m, ChildPhase(m)) && ChildPhase(m) != CleanupPlanned && m.sys.store.child.value.dropObserved
    ensures var m' := CompleteChild(m);
            CleaningChild(m', CleanupCompleted) && m'.sys.store.child.value.dropObserved
  {
  }

  lemma RecordGoes(m: Machine)
    requires CleaningChild(m, CleanupCompleted) && m.sys.store.child.value.dropObserved
    ensures CompleteCleanup(m).flow == Live && CompleteCleanup(m).sys.store.main.cleanupCompleted
  {
    CompletionAccepted(m.sys.store);
  }

  lemma CompletionAccepted(s: Store)
    requires ValidRecord(s.main) && s.main.cleanupRequested && s.child.Some? && BoundTo(s.main, s.child.value)
    requires s.child.value.phase == CleanupCompleted && s.child.value.dropObserved
    ensures UpdateFacts(s, NO_FACTS.(cleanupCompleted := Set(true))).Ok?
  {
  }

  lemma ExecuteGoes(m: Machine)
    requires Cleaning(m)
    ensures Execute(m).flow == Live && Execute(m).sys.store.main.cleanupCompleted
  {
    var m1 := Request(m);
    var m2 := StartChild(m1);
    var m3 := DropOnce(m2);
    var m4 := CompleteChild(m3);
    RequestGoes(m);
    StartGoes(m1);
    DropGoes(m2);
    CompleteGoes(m3);
    RecordGoes(m4);
  }

  lemma RequestRefused(m: Machine)
    requires m.flow == Live && !CleanupEligible(m.sys)
    ensures Execute(m) == m.(flow := Raised(RecordFailed(CleanupForbidden)))
  {
  }

  /**
   From every state a history of calls can leave, whatever cuts it had, an uninterrupted
   cleanup completes exactly when the incident is eligible; it has then dropped the database
   exactly once.
   */
  lemma CleanupConverges(s: Sys)
    requires SysInv(s)
    ensures var (t, verdict) := Cleanup(s, Immortal);
            && (verdict == Pass <==> CleanupEligible(s))
            && (verdict == Pass ==> t.store.main.cleanupCompleted && t.world.effects[CleanupDrop] == 1 && !t.world.created)
            && (verdict != Pass ==> t == s)
  {
    var m := Machine(s, Immortal, Live);
    if CleanupEligible(s) {
      ExecuteGoes(m);
      ExecuteKeeps(m);
      CompletedMeansDropped(Execute(m).sys);
    } else {
      RequestRefused(m);
    }
  }

  lemma CompletedMeansDropped(s: Sys)
    requires SysInv(s) && s.store.main.cleanupCompleted
    ensures s.world.effects[CleanupDrop] == 1 && !s.world.created
  {
  }

  // ---------------------------------------------------------------- executing again after a cut

  /** What eligibility depends on. */
  predicate SameEligibility(a: Sys, b: Sys) {
    && a.store.main.phase == b.store.main.phase
    && a.store.main.replacementActivated == b.store.main.replacementActivated
    && a.world.env == b.world.env
  }

  lemma FactsSpareEligibility(m: Machine, f: Facts)
    requires f.replacementActivated.Keep?
    ensures SameEligibility(m.sys, LeaseFacts(m, f).sys)
  {
  }

  lemma RequestSparesEligibility(m: Machine)
    ensures SameEligibility(m.sys, Request(m).sys)
  {
    if m.flow == Live && CleanupEligible(m.sys) {
      var m1 := if !m.sys.store.main.cleanupRequested then LeaseFacts(m, RequestFacts(m.sys.store.main)) else m;
      FactsSpareEligibility(m, RequestFacts(m.sys.store.main));
      CreateSparesMain(m1);
      assert Request(m).sys.store.main == m1.sys.store.main && Request(m).sys.world == m1.sys.world;
    }
  }

  lemma ChildStepsSpareEnv(m: Machine)
    ensures CompleteChild(DropOnce(StartChild(m))).sys.world.env == m.sys.world.env
  {
    ChildWritesSpareWorld(m);
    DropSparesEnv(StartChild(m));
    ChildWritesSpareWorld(DropOnce(StartChild(m)));
  }

  lemma ChildWritesSpareWorld(m: Machine)
    ensures StartChild(m).sys.world == m.sys.world && CompleteChild(m).sys.world == m.sys.world
  {
  }

  lemma DropSparesEnv(m: Machine)
    ensures DropOnce(m).sys.world.env == m.sys.world.env
  {
  }

  lemma ExecuteSparesEligibility(m: Machine)
    ensures SameEligibility(m.sys, Execute(m).sys)
  {
    var m1 := Request(m);
    var m2 := CompleteChild(DropOnce(StartChild(m1)));
    RequestSparesEligibility(m);
    ChildStepsSpareMain(m1);
    ChildStepsSpareEnv(m1);
    FactsSpareEligibility(m2, NO_FACTS.(cleanupCompleted := Set(true)));
  }

  lemma {:induction false} CutsSpareEligibility(s: Sys, calls: seq<Call>)
    requires SysInv(s)
    requires forall c :: c in calls ==> c.CallRequest? || c.CallCleanup?
    ensures SysInv(DoAll(s, calls)) && SameEligibility(s, DoAll(s, calls))
    decreases |calls|
  {
    if calls != [] {
      var c := calls[0];
      assert c in calls;
      DoKeeps(s, c);
      if c.CallRequest? {
        RequestSparesEligibility(Machine(s, c.life, Live));
      } else {
        ExecuteSparesEligibility(Machine(s, c.life, Live));
      }
      assert forall d :: d in calls[1..] ==> d in calls;
      CutsSpareEligibility(Do(s, c), calls[1..]);
    }
  }

  /** After any number of requests and cleanups, each cut at any effect, an eligible incident can still be cleaned up. */
  lemma CutCleanupsConverge(s: Sys, calls: seq<Call>)
    requires SysInv(s)
    requires forall c :: c in calls ==> c.CallRequest? || c.CallCleanup?
    ensures var (t, verdict) := Cleanup(DoAll(s, calls), Immortal);
            && (verdict == Pass <==> CleanupEligible(s))
            && (verdict == Pass ==> t.store.main.cleanupCompleted && t.world.effects[CleanupDrop] == 1)
  {
    CutsSpareEligibility(s, calls);
    CleanupConverges(DoAll(s, calls));
  }

  /** The same of every state that any history of calls leaves of a planned incident. */
  lemma ReachableCleanupConverges(s: Sys, calls: seq<Call>)
    requires FreshSys(s)
    ensures var before := DoAll(s, calls);
            var (t, verdict) := Cleanup(before, Immortal);
            && (verdict == Pass <==> CleanupEligible(before))
            && (verdict == Pass ==> t.store.main.cleanupCompleted && t.world.effects[CleanupDrop] == 1 && !t.world.created)
  {
    Reachable(s, calls);
    CleanupConverges(DoAll(s, calls));
  }
}
