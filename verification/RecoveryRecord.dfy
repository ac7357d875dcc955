/**
 The durable record store of the recovery protocol
 (backend/app/deploy/production_recovery_record.py): write-once, sticky and
 phase-bound facts of the main record, and the cleanup child bound to it.
 Every store call is a function from the durable state to the next one or to the
 error it raises; the lemmas speak about every history of such calls.
 */
module RecoveryRecord {
  import opened Wrappers
  import opened RecoveryModels

  /** The two record files of one incident. */
  datatype Store = Store(main: Record, child: Option<Child>)

  /** A change set for the main record. */
  datatype Facts = Facts(
    protectionId: Change<Option<string>>,
    protectionManifest: Change<Option<string>>,
    protectionDump: Change<Option<string>>,
    protectionWatchlist: Change<Option<string>>,
    resources: Change<Resources>,
    auth: Change<Authorizations>,
    lastError: Change<Option<ErrorCode>>,
    retryable: Change<bool>,
    verification: Change<Verification>,
    verificationError: Change<Option<ErrorCode>>,
    monitorStopped: Change<TriState>,
    leaseFree: Change<TriState>,
    applicationStopped: Change<TriState>,
    connectionsDrained: Change<TriState>,
    cleanupId: Change<Option<string>>,
    cleanupRequested: Change<bool>,
    cleanupCompleted: Change<bool>,
    protectionStatus: Change<ProtectionStatus>,
    watchlistAuthorized: Change<bool>,
    watchlistWasSwitched: Change<bool>,
    replacementActivated: Change<bool>,
    firstWrite: Change<TriState>,
    firstWriteAt: Change<Option<int>>,
    generation: Change<Option<string>>,
    baseline: Change<Option<string>>,
    manual: Change<bool>)

  const NO_FACTS := Facts(Keep, Keep, Keep, Keep, Keep, Keep, Keep, Keep, Keep, Keep, Keep, Keep, Keep,
                          Keep, Keep, Keep, Keep, Keep, Keep, Keep, Keep, Keep, Keep, Keep, Keep, Keep)

  function Applied(r: Record, f: Facts): Record {
    r.(protection := ProtectionIdentity(f.protectionId.Apply(r.protection.backupId),
                                        f.protectionManifest.Apply(r.protection.manifest),
                                        f.protectionDump.Apply(r.protection.dump),
                                        f.protectionWatchlist.Apply(r.protection.watchlist)),
       resources := f.resources.Apply(r.resources),
       auth := f.auth.Apply(r.auth),
       lastError := f.lastError.Apply(r.lastError),
       retryable := f.retryable.Apply(r.retryable),
       verification := f.verification.Apply(r.verification),
       verificationError := f.verificationError.Apply(r.verificationError),
       monitorStopped := f.monitorStopped.Apply(r.monitorStopped),
       leaseFree := f.leaseFree.Apply(r.leaseFree),
       applicationStopped := f.applicationStopped.Apply(r.applicationStopped),
       connectionsDrained := f.connectionsDrained.Apply(r.connectionsDrained),
       cleanupId := f.cleanupId.Apply(r.cleanupId),
       cleanupRequested := f.cleanupRequested.Apply(r.cleanupRequested),
       cleanupCompleted := f.cleanupCompleted.Apply(r.cleanupCompleted),
       protectionStatus := f.protectionStatus.Apply(r.protectionStatus),
       watchlistAuthorized := f.watchlistAuthorized.Apply(r.watchlistAuthorized),
       watchlistWasSwitched := f.watchlistWasSwitched.Apply(r.watchlistWasSwitched),
       replacementActivated := f.replacementActivated.Apply(r.replacementActivated),
       firstWrite := f.firstWrite.Apply(r.firstWrite),
       firstWriteAt := f.firstWriteAt.Apply(r.firstWriteAt),
       generation := f.generation.Apply(r.generation),
       baseline := f.baseline.Apply(r.baseline),
       manual := f.manual.Apply(r.manual))
  }

  predicate FilledOnce<T(==)>(before: Option<T>, c: Change<Option<T>>) {
    c.Set? && before.Some? ==> c.value == before
  }

  predicate StickyFlag(before: bool, c: Change<bool>) {
    c.Set? && before ==> c.value
  }

  predicate StickyYes(before: TriState, c: Change<TriState>) {
    c.Set? && before == Yes ==> c.value == Yes
  }

  /** The write-once, sticky and phase-bound guards of one change set. */
  predicate FactsAllowed(r: Record, f: Facts) {
    && FilledOnce(r.protection.backupId, f.protectionId)
    && FilledOnce(r.protection.manifest, f.protectionManifest)
    && FilledOnce(r.protection.dump, f.protectionDump)
    && FilledOnce(r.protection.watchlist, f.protectionWatchlist)
    && FilledOnce(r.cleanupId, f.cleanupId)
    && FilledOnce(r.generation, f.generation)
    && FilledOnce(r.baseline, f.baseline)
    && FilledOnce(r.firstWriteAt, f.firstWriteAt)
    && StickyYes(r.monitorStopped, f.monitorStopped)
    && StickyYes(r.leaseFree, f.leaseFree)
    && StickyYes(r.applicationStopped, f.applicationStopped)
    && StickyYes(r.connectionsDrained, f.connectionsDrained)
    && StickyFlag(r.cleanupRequested, f.cleanupRequested)
    && StickyFlag(r.cleanupCompleted, f.cleanupCompleted)
    && StickyFlag(r.watchlistWasSwitched, f.watchlistWasSwitched)
    && StickyFlag(r.replacementActivated, f.replacementActivated)
    && StickyFlag(r.manual, f.manual)
    && (f.auth.Set? ==>
          && (r.auth.protectionSkip ==> f.auth.value.protectionSkip)
          && (r.auth.watchlistSwitch ==> f.auth.value.watchlistSwitch)
          && (r.auth.monitorStart ==> f.auth.value.monitorStart))
    && (f.protectionStatus.Set? && r.protectionStatus != ProtectionPending ==>
          f.protectionStatus.value == r.protectionStatus)
    && (f.verification.Set? ==>
          r.phase == VERIFICATION_STARTED && r.verification == NotStarted && f.verification.value != NotStarted)
    && (f.firstWrite.Set? ==>
          (r.phase == MONITOR_STARTED || r.phase == MONITOR_WRITE_OBSERVED) && r.firstWrite == Unknown && f.firstWrite.value != Unknown)
    && (f.generation.Set? || f.baseline.Set? ==> r.phase == READINESS_PASSED || r.phase == MONITOR_START_AUTHORIZED)
    && (f.firstWriteAt.Set? ==>
          (r.phase == MONITOR_STARTED || r.phase == MONITOR_WRITE_OBSERVED) && f.firstWrite.Set? && f.firstWrite.value != Unknown)
    && (f.resources.Set? ==> ResourcesAllowed(r.resources, f.resources.value))
  }

  predicate ResourcesAllowed(before: Resources, after: Resources) {
    && before.fixed == after.fixed
    && (before.protectedEnv.Some? ==> after.protectedEnv == before.protectedEnv)
    && (before.stagedWatchlist.Some? ==> after.stagedWatchlist == before.stagedWatchlist)
    && (before.protectedWatchlist.Some? ==> after.protectedWatchlist == before.protectedWatchlist)
  }

  function Advance(s: Store, target: Phase): Result<Store, ErrorCode> {
    match AdvanceRecord(s.main, target)
    case Err(e) => Err(e)
    case Ok(r) => Ok(s.(main := r))
  }

  function UpdateFacts(s: Store, f: Facts): Result<Store, ErrorCode> {
    var r := s.main;
    if f == NO_FACTS || !FactsAllowed(r, f) then
      Err(FactUpdateInvalid)
    else if f.cleanupCompleted == Set(true) && !r.cleanupCompleted && TerminalChild(s) != Ok(()) then
      Err(TerminalChild(s).error)
    else if !ValidRecord(Applied(r, f)) then
      Err(FactUpdateInvalid)
    else
      Ok(s.(main := Applied(r, f)))
  }

  /** Cleanup may be recorded as complete only against a terminal child bound to this record. */
  function TerminalChild(s: Store): Result<(), ErrorCode> {
    if s.main.cleanupId.None? then Err(CleanupIdentityInvalid)
    else if s.child.None? then Err(RecordInvalid)
    else if !BoundTo(s.main, s.child.value) then Err(CleanupIdentityInvalid)
    else if s.child.value.phase != CleanupCompleted || !s.child.value.dropObserved then Err(CleanupNotCompleted)
    else Ok(())
  }

  function CreateChild(s: Store, c: Child): Result<Store, ErrorCode> {
    if !s.main.cleanupRequested || !BoundTo(s.main, c) then Err(CleanupIdentityInvalid)
    else if s.child.Some? && s.child.value != c then Err(CleanupIdentityInvalid)
    else Ok(s.(child := Some(c)))
  }

  function ReadChild(s: Store): Result<Child, ErrorCode> {
    if s.main.cleanupId.None? then Err(CleanupIdentityInvalid)
    else if s.child.None? then Err(RecordInvalid)
    else if !BoundTo(s.main, s.child.value) then Err(CleanupIdentityInvalid)
    else Ok(s.child.value)
  }

  function AdvanceStoredChild(s: Store, target: CleanupPhase): Result<Store, ErrorCode> {
    match ReadChild(s)
    case Err(e) => Err(e)
    case Ok(c) =>
      match AdvanceChild(c, target)
      case Err(e) => Err(e)
      case Ok(c') => Ok(s.(child := Some(c')))
  }

  function UpdateChildFacts(s: Store, drop: Change<bool>, lastError: Change<Option<ErrorCode>>): Result<Store, ErrorCode> {
    if drop.Keep? && lastError.Keep? then Err(CleanupFactUpdateInvalid)
    else
      match ReadChild(s)
      case Err(e) => Err(e)
      case Ok(c) =>
        if drop.Set? && (c.phase != CleanupStarted || c.dropObserved || !drop.value) then Err(CleanupFactUpdateInvalid)
        else Ok(s.(child := Some(c.(dropObserved := drop.Apply(c.dropObserved), lastError := lastError.Apply(c.lastError)))))
  }

  /** A fresh incident: the record as it is planned, before anything was observed. */
  predicate FreshRecord(r: Record) {
    && r.phase == PLANNED
    && r.auth == Authorizations(false, false, false)
    && r.protection == ProtectionIdentity(None, None, None, None)
    && r.protectionStatus == ProtectionPending
    && r.verification == NotStarted
    && r.monitorStopped == Unknown && r.leaseFree == Unknown
    && r.applicationStopped == Unknown && r.connectionsDrained == Unknown
    && r.cleanupId.None? && !r.cleanupRequested && !r.cleanupCompleted
    && !r.watchlistAuthorized && !r.watchlistWasSwitched && !r.replacementActivated
    && r.firstWrite == Unknown && r.firstWriteAt.None? && r.generation.None? && r.baseline.None?
    && !r.manual
    && r.resources.protectedEnv.None? && r.resources.protectedWatchlist.None?
  }

  // ---------------------------------------------------------------- histories

  datatype StoreCall =
    | DoAdvance(target: Phase)
    | DoUpdate(facts: Facts)
    | DoCreateChild(child: Child)
    | DoAdvanceChild(childTarget: CleanupPhase)
    | DoUpdateChild(drop: Change<bool>, lastError: Change<Option<ErrorCode>>)

  function Attempt(s: Store, c: StoreCall): Result<Store, ErrorCode> {
    match c
    case DoAdvance(p) => Advance(s, p)
    case DoUpdate(f) => UpdateFacts(s, f)
    case DoCreateChild(k) => CreateChild(s, k)
    case DoAdvanceChild(p) => AdvanceStoredChild(s, p)
    case DoUpdateChild(d, e) => UpdateChildFacts(s, d, e)
  }

  /** A call that raises writes nothing. */
  function After(s: Store, c: StoreCall): Store {
    match Attempt(s, c)
    case Ok(s') => s'
    case Err(_) => s
  }

  function Replay(s: Store, calls: seq<StoreCall>): Store
    decreases |calls|
  {
    if calls == [] then s else Replay(After(s, calls[0]), calls[1..])
  }

  /** What the store's guards establish, phase by phase. */
  predicate StoreInv(s: Store) {
    var r, k := s.main, s.main.phase;
    && ValidRecord(r)
    && (k > VERIFICATION_STARTED ==> r.verification == Passed)
    && (k < VERIFICATION_STARTED ==> r.verification == NotStarted)
    && (k >= SERVICES_STOPPED ==>
          r.monitorStopped == Yes && r.leaseFree == Yes && r.applicationStopped == Yes && r.connectionsDrained == Yes)
    && (k >= PROTECTION_BACKUP_COMPLETED ==> ProtectionSettled(r))
    && (ENV_SWITCHED <= k <= COMPLETED ==> r.replacementActivated)
    && (k == WATCHLIST_SWITCHED ==> r.watchlistWasSwitched)
    && (MONITOR_START_AUTHORIZED <= k <= COMPLETED ==> r.auth.monitorStart)
    && (MONITOR_START_STARTED <= k <= COMPLETED ==> r.generation.Some? && r.baseline.Some?)
    && (r.firstWrite != Unknown ==> MONITOR_STARTED <= k <= COMPLETED)
    && (k == COMPLETED ==> r.firstWrite != Unknown)
    && (s.child.Some? ==> r.cleanupRequested && BoundTo(r, s.child.value))
    && (r.cleanupCompleted ==> s.child.Some? && s.child.value.phase == CleanupCompleted && s.child.value.dropObserved)
  }

  /** Either a complete frozen package identity, or an authorized skip without one. */
  predicate ProtectionSettled(r: Record) {
    || (r.protectionStatus == ProtectionDone && AllFrozen(r.protection))
    || (r.protectionStatus == ProtectionSkipped && NoneFrozen(r.protection) && r.auth.protectionSkip)
  }

  /** How a later record may differ from an earlier one. */
  predicate Evolves(a: Record, b: Record) {
    && a.incidentId == b.incidentId && a.lockIdentity == b.lockIdentity
    && a.phase <= b.phase
    && (MONITOR_START_STARTED <= a.phase <= COMPLETED ==> b.phase <= COMPLETED)
    && (a.phase == VERIFICATION_STARTED && a.verification == Failed ==> b.phase == VERIFICATION_STARTED)
    && (a.manual && a.phase < COMPLETED ==> b.phase != COMPLETED)
    && ResourcesAllowed(a.resources, b.resources)
    && (a.verification != NotStarted ==> b.verification == a.verification)
    && (a.protection.backupId.Some? ==> b.protection.backupId == a.protection.backupId)
    && (a.protection.manifest.Some? ==> b.protection.manifest == a.protection.manifest)
    && (a.protection.dump.Some? ==> b.protection.dump == a.protection.dump)
    && (a.protection.watchlist.Some? ==> b.protection.watchlist == a.protection.watchlist)
    && (a.generation.Some? ==> b.generation == a.generation)
    && (a.baseline.Some? ==> b.baseline == a.baseline)
    && (a.cleanupId.Some? ==> b.cleanupId == a.cleanupId)
    && (a.cleanupRequested ==> b.cleanupRequested)
    && (a.cleanupCompleted ==> b.cleanupCompleted)
    && (a.watchlistWasSwitched ==> b.watchlistWasSwitched)
    && (a.replacementActivated ==> b.replacementActivated)
    && (a.manual ==> b.manual)
  }

  lemma AdvanceEvolves(r: Record, target: Phase)
    requires AdvanceRecord(r, target).Ok?
    ensures Evolves(r, AdvanceRecord(r, target).value)
    ensures r.phase < target
  {
  }

  lemma AdvanceKeepsStore(s: Store, target: Phase)
    requires StoreInv(s) && Advance(s, target).Ok?
    ensures StoreInv(Advance(s, target).value)
  {
  }

  lemma UpdateKeepsStore(s: Store, f: Facts)
    requires StoreInv(s) && UpdateFacts(s, f).Ok?
    ensures StoreInv(UpdateFacts(s, f).value)
  {
  }

  lemma UpdateEvolves(s: Store, f: Facts)
    requires UpdateFacts(s, f).Ok?
    ensures Evolves(s.main, UpdateFacts(s, f).value.main)
  {
  }

  lemma ChildKeepsStore(s: Store, c: StoreCall)
    requires StoreInv(s) && !c.DoAdvance? && !c.DoUpdate?
    ensures StoreInv(After(s, c)) && After(s, c).main == s.main
  {
  }

  lemma AfterKeepsStore(s: Store, c: StoreCall)
    requires StoreInv(s)
    ensures StoreInv(After(s, c)) && Evolves(s.main, After(s, c).main)
  {
    match c
    case DoAdvance(p) => if Advance(s, p).Ok? { AdvanceKeepsStore(s, p); AdvanceEvolves(s.main, p); }
    case DoUpdate(f) => if UpdateFacts(s, f).Ok? { UpdateKeepsStore(s, f); UpdateEvolves(s, f); }
    case _ => ChildKeepsStore(s, c);
  }

  lemma EvolvesTransitive(a: Record, b: Record, c: Record)
    requires Evolves(a, b) && Evolves(b, c)
    ensures Evolves(a, c)
  {
  }

  /** Over every history of store calls the phase-indexed facts hold and the record only evolves. */
  lemma {:induction false} HistoryInvariant(s: Store, calls: seq<StoreCall>)
    requires StoreInv(s)
    ensures StoreInv(Replay(s, calls)) && Evolves(s.main, Replay(s, calls).main)
    decreases |calls|
  {
    if calls != [] {
      AfterKeepsStore(s, calls[0]);
      HistoryInvariant(After(s, calls[0]), calls[1..]);
      EvolvesTransitive(s.main, After(s, calls[0]).main, Replay(s, calls).main);
    }
  }

  /** From a planned record without a child, every history of store calls keeps the facts of its phase. */
  lemma PlannedHistory(s: Store, calls: seq<StoreCall>)
    requires FreshRecord(s.main) && s.child.None?
    ensures StoreInv(Replay(s, calls)) && Evolves(s.main, Replay(s, calls).main)
  {
    assert StoreInv(s);
    HistoryInvariant(s, calls);
  }
}
