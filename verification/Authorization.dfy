/**
 Single-use authorizations (AuthorizationStore in
 backend/app/deploy/backup_retention_authorization.py) as threads taking steps: each step
 reads or writes one record file, or takes or releases flocks. Identifiers are numbers in
 the order of their hexadecimal text. A digest is an ideal SHA-256: injective on records.
 */
module Authorization {
  import opened Wrappers

  type Id = nat

  datatype LockIdentity = LockIdentity(device: nat, inode: nat)

  datatype RootIdentity = RootIdentity(logicalId: string, device: nat, inode: nat)

  datatype Phase = Issued | Consumed | Cancelled

  datatype PinOperation = DoPin | DoUnpin

  datatype Payload =
    | Pin(backupId: string, reason: string, expectedPin: string)
    | Unpin(backupId: string, expectedReason: string, expectedPin: string)
    | PinReconcile(predecessor: Id, identity: Digest, original: PinOperation, backupId: string,
                   intendedReason: Option<string>, observedBefore: string)
    | Apply(planId: string, planDigest: string)
    | Resume(predecessor: Id, identity: Digest, planId: string, planDigest: string)

  datatype Digest = Sha256(of: Auth) | OtherText(hex: string)

  datatype Auth = Auth(
    id: Id,
    nonce: string,
    root: RootIdentity,
    lock: LockIdentity,
    issuedAt: int,
    expiresAt: int,
    phase: Phase,
    consumedAt: Option<int>,
    payload: Payload)

  // ---------------------------------------------------------------- checks

  /** The one authorization that must have been consumed before this one, if any. */
  function PredecessorOf(p: Payload): Option<Id> {
    match p
    case PinReconcile(q, _, _, _, _, _) => Some(q)
    case Resume(q, _, _, _) => Some(q)
    case _ => None
  }

  predicate Consumable(a: Auth, nonce: string, now: int, root: RootIdentity) {
    a.nonce == nonce && a.phase == Issued && now < a.expiresAt && a.root == root
  }

  predicate PinLineage(p: Payload, before: Payload)
    requires p.PinReconcile?
  {
    match before
    case Pin(b, reason, pin) =>
      p.original == DoPin && b == p.backupId && Some(reason) == p.intendedReason && pin == p.observedBefore
    case Unpin(b, _, pin) => p.original == DoUnpin && b == p.backupId && p.intendedReason.None? && pin == p.observedBefore
    case _ => false
  }

  predicate RetentionLineage(p: Payload, before: Payload)
    requires p.Resume?
  {
    (before.Apply? || before.Resume?) && before.planId == p.planId && before.planDigest == p.planDigest
  }

  /** A consumed predecessor with exactly the recorded digest, of the right kind and lineage. */
  predicate PredecessorOk(records: map<Id, Auth>, lockFiles: map<Id, LockIdentity>, a: Auth) {
    var p := a.payload;
    if PredecessorOf(p).None? then true
    else
      p.predecessor in records
      && var before := records[p.predecessor];
         && p.predecessor in lockFiles && lockFiles[p.predecessor] == before.lock
         && before.phase == Consumed
         && p.identity == Sha256(before)
         && if p.PinReconcile? then PinLineage(p, before.payload) else RetentionLineage(p, before.payload)
  }

  // ---------------------------------------------------------------- threads

  datatype Job = Consume(id: Id, nonce: string) | Cancel(id: Id, nonce: string)

  /** Where a thread stands; the numbers are the clock readings it carries, the records its local copies. */
  datatype Pc =
    | Begin
    | First
    | Acquire(got: nat)
    | Check
    | TakeRoot
    | Recheck
    | Prepare(at: int, current: Auth)
    | Write(at: int, current: Auth)
    | Handing(at: int, written: Auth)
    | InBody
    | CancelWrite(current: Auth)
    | Finished(ok: bool)

  datatype Thread = Thread(job: Job, pc: Pc, wants: seq<Id>, predecessor: Option<Id>)

  /** An authorization handed to a caller that presented this nonce. */
  datatype Yielded = Yielded(record: Auth, at: int, nonce: string)

  datatype State = State(
    records: map<Id, Auth>,
    locks: map<Id, nat>,
    rootHeld: Option<nat>,
    lockFiles: map<Id, LockIdentity>,
    root: RootIdentity,
    threads: seq<Thread>,
    handed: seq<Yielded>)

  /** The lock identifiers of a consumption, ascending and without repetition. */
  function SortedPair(a: Id, b: Option<Id>): seq<Id> {
    if b.None? || b.value == a then [a] else if a < b.value then [a, b.value] else [b.value, a]
  }

  function At(s: State, t: nat, pc: Pc): State
    requires t < |s.threads|
  {
    s.(threads := s.threads[t := s.threads[t].(pc := pc)])
  }

  /** Leaving every context manager: all flocks of the thread go. */
  function Released(s: State, t: nat): State {
    s.(locks := map l | l in s.locks && s.locks[l] != t :: s.locks[l],
       rootHeld := if s.rootHeld == Some(t) then None else s.rootHeld)
  }

  function Ended(s: State, t: nat, ok: bool): State
    requires t < |s.threads|
  {
    At(Released(s, t), t, Finished(ok))
  }

  /** The record can be read and belongs to the lock file under which it is read. */
  predicate Readable(s: State, id: Id) {
    id in s.records && id in s.lockFiles && s.records[id].lock == s.lockFiles[id]
  }

  /** The first, brief look under the own lock. */
  function FirstStep(s: State, t: nat): State
    requires t < |s.threads|
  {
    var job := s.threads[t].job;
    if !Readable(s, job.id) then Ended(s, t, false)
    else
      var a := s.records[job.id];
      match job
      case Consume(id, _) =>
        var q := PredecessorOf(a.payload);
        Released(s, t).(threads := s.threads[t := Thread(job, Acquire(0), SortedPair(id, q), q)])
      case Cancel(_, nonce) =>
        if a.nonce == nonce && a.phase == Issued then At(s, t, CancelWrite(a)) else Ended(s, t, false)
  }

  /** The validation made twice: once under the authorization locks, once under the root lock as well. */
  predicate Validates(s: State, th: Thread, now: int) {
    && Readable(s, th.job.id)
    && var a := s.records[th.job.id];
       && PredecessorOf(a.payload) == th.predecessor
       && Consumable(a, th.job.nonce, now, s.root)
       && PredecessorOk(s.records, s.lockFiles, a)
  }

  /** One step of thread t, with the clock reading now; ok tells whether a callback or a write succeeds. */
  function Step(s: State, t: nat, now: int, ok: bool): State
    requires t < |s.threads|
  {
    var th := s.threads[t];
    match th.pc
    case Begin => if th.job.id in s.locks then s else At(s.(locks := s.locks[th.job.id := t]), t, First)
    case First => FirstStep(s, t)
    case Acquire(k) =>
      if k >= |th.wants| then At(s, t, Check)
      else if th.wants[k] in s.locks then s
      else At(s.(locks := s.locks[th.wants[k] := t]), t, if k + 1 == |th.wants| then Check else Acquire(k + 1))
    case Check => if Validates(s, th, now) then At(s, t, TakeRoot) else Ended(s, t, false)
    case TakeRoot => if s.rootHeld.None? then At(s.(rootHeld := Some(t)), t, Recheck) else Ended(s, t, false)
    case Recheck => if Validates(s, th, now) then At(s, t, Prepare(now, s.records[th.job.id])) else Ended(s, t, false)
    case Prepare(at, current) => if ok then At(s, t, Write(at, current)) else Ended(s, t, false)
    case Write(at, current) =>
      var consumed := current.(phase := Consumed, consumedAt := Some(at));
      if ok then At(s.(records := s.records[th.job.id := consumed]), t, Handing(at, consumed)) else Ended(s, t, false)
    // the copy in memory is handed out, not the file
    case Handing(at, written) => At(s.(handed := s.handed + [Yielded(written, at, th.job.nonce)]), t, InBody)
    case InBody => Ended(s, t, true)
    case CancelWrite(current) =>
      if ok then Ended(s.(records := s.records[th.job.id := current.(phase := Cancelled)]), t, true) else Ended(s, t, false)
    case Finished(_) => s
  }

  datatype Event =
    | Run(thread: nat, now: int, ok: bool)
    | Crash(thread: nat)
    | Spawn(job: Job)
    | Issue(auth: Auth)

  /** A record is created once, under a lock file that exists already. */
  predicate MayIssue(s: State, a: Auth) {
    a.id !in s.records && a.phase == Issued && a.consumedAt.None? && a.root == s.root
    && a.id in s.lockFiles && s.lockFiles[a.id] == a.lock
  }

  function Next(s: State, e: Event): State {
    match e
    case Run(t, now, ok) => if t < |s.threads| then Step(s, t, now, ok) else s
    case Crash(t) => if t < |s.threads| then Ended(s, t, false) else s
    case Spawn(job) => s.(threads := s.threads + [Thread(job, Begin, [], None)])
    case Issue(a) => if MayIssue(s, a) then s.(records := s.records[a.id := a]) else s
  }

  function RunAll(s: State, events: seq<Event>): State
    decreases |events|
  {
    if events == [] then s else RunAll(Next(s, events[0]), events[1..])
  }

  // ---------------------------------------------------------------- the locks

  /** Which flocks a thread holds at its place in the program. */
  predicate Holds(th: Thread, l: Id) {
    match th.pc
    case First => l == th.job.id
    case CancelWrite(_) => l == th.job.id
    case Acquire(k) => k <= |th.wants| && l in th.wants[..k]
    case Begin => false
    case Finished(_) => false
    case _ => l in th.wants
  }

  predicate HoldsRoot(pc: Pc) {
    pc.Recheck? || pc.Prepare? || pc.Write? || pc.Handing? || pc.InBody?
  }

  predicate Ascending(ids: seq<Id>) {
    forall i, j :: 0 <= i < j < |ids| ==> ids[i] < ids[j]
  }

  /** Past its first look, a consumption wants its own lock and its predecessor's, in ascending order. */
  predicate Wanting(th: Thread) {
    && Ascending(th.wants) && th.job.id in th.wants && th.job.Consume?
    && (th.predecessor.Some? ==> th.predecessor.value in th.wants)
    && (th.pc.Acquire? ==> th.pc.got < |th.wants|)
  }

  predicate Shaped(th: Thread) {
    match th.pc
    case Begin => true
    case First => true
    case Finished(_) => true
    case CancelWrite(_) => th.job.Cancel?
    case _ => Wanting(th)
  }

  /** Every flock has exactly the owner that stands where it holds it. */
  ghost predicate LocksOk(s: State) {
    && (forall l :: l in s.locks ==> s.locks[l] < |s.threads| && Holds(s.threads[s.locks[l]], l))
    && (forall t, l :: 0 <= t < |s.threads| && Holds(s.threads[t], l) ==> l in s.locks && s.locks[l] == t)
    && (forall t :: 0 <= t < |s.threads| ==> (s.rootHeld == Some(t) <==> HoldsRoot(s.threads[t].pc)))
    && (s.rootHeld.Some? ==> s.rootHeld.value < |s.threads|)
    && (forall t :: 0 <= t < |s.threads| ==> Shaped(s.threads[t]))
  }

  predicate OwnedBy(s: State, l: Id, t: nat) {
    l in s.locks && s.locks[l] == t
  }

  /** A step of thread t: only its own flocks change, and they are again the ones its place calls for. */
  ghost predicate Retakes(s: State, s': State, t: nat) {
    && t < |s.threads| == |s'.threads|
    && (forall u :: 0 <= u < |s.threads| && u != t ==> s'.threads[u] == s.threads[u])
    && (forall l, u :: u != t ==> (OwnedBy(s', l, u) <==> OwnedBy(s, l, u)))
    && (forall l :: OwnedBy(s', l, t) <==> Holds(s'.threads[t], l))
    && (forall u :: u != t ==> (s'.rootHeld == Some(u) <==> s.rootHeld == Some(u)))
    && (s'.rootHeld == Some(t) <==> HoldsRoot(s'.threads[t].pc))
    && Shaped(s'.threads[t])
  }

  lemma RetakesKeeps(s: State, s': State, t: nat)
    requires LocksOk(s) && Retakes(s, s', t)
    ensures LocksOk(s')
  {
    forall l | l in s'.locks ensures s'.locks[l] < |s'.threads| && Holds(s'.threads[s'.locks[l]], l) {
      var u := s'.locks[l];
      assert OwnedBy(s', l, u);
      if u != t { assert OwnedBy(s, l, u); }
    }
    forall u, l | 0 <= u < |s'.threads| && Holds(s'.threads[u], l) ensures l in s'.locks && s'.locks[l] == u {
      if u != t { assert OwnedBy(s, l, u); }
      assert OwnedBy(s', l, u);
    }
  }

  lemma EndRetakes(s: State, t: nat, ok: bool)
    requires LocksOk(s) && t < |s.threads|
    ensures Retakes(s, Ended(s, t, ok), t)
  {
  }

  /** A change of place that calls for the same flocks. */
  lemma StayRetakes(s: State, t: nat, pc: Pc)
    requires LocksOk(s) && t < |s.threads|
    requires Shaped(s.threads[t].(pc := pc)) && HoldsRoot(pc) == HoldsRoot(s.threads[t].pc)
    requires forall l :: Holds(s.threads[t].(pc := pc), l) <==> Holds(s.threads[t], l)
    ensures Retakes(s, At(s, t, pc), t)
  {
  }

  /** Taking one free flock. */
  lemma GainRetakes(s: State, t: nat, l: Id, pc: Pc)
    requires LocksOk(s) && t < |s.threads| && l !in s.locks
    requires Shaped(s.threads[t].(pc := pc)) && HoldsRoot(pc) == HoldsRoot(s.threads[t].pc)
    requires forall x :: Holds(s.threads[t].(pc := pc), x) <==> Holds(s.threads[t], x) || x == l
    ensures Retakes(s, At(s.(locks := s.locks[l := t]), t, pc), t)
  {
    var s' := At(s.(locks := s.locks[l := t]), t, pc);
    forall x ensures OwnedBy(s', x, t) <==> Holds(s'.threads[t], x) {
      assert OwnedBy(s, x, t) <==> Holds(s.threads[t], x);
    }
  }

  lemma FirstRetakes(s: State, t: nat)
    requires LocksOk(s) && t < |s.threads| && s.threads[t].pc == First
    ensures Retakes(s, FirstStep(s, t), t)
  {
    var job := s.threads[t].job;
    EndRetakes(s, t, false);
    if Readable(s, job.id) && job.Cancel? && s.records[job.id].nonce == job.nonce && s.records[job.id].phase == Issued {
      StayRetakes(s, t, CancelWrite(s.records[job.id]));
    }
  }

  lemma AcquireRetakes(s: State, t: nat)
    requires LocksOk(s) && t < |s.threads| && s.threads[t].pc.Acquire?
    requires s.threads[t].wants[s.threads[t].pc.got] !in s.locks
    ensures Retakes(s, Step(s, t, 0, true), t)
  {
    var th, k := s.threads[t], s.threads[t].pc.got;
    var pc := if k + 1 == |th.wants| then Check else Acquire(k + 1);
    assert th.wants[..k + 1] == th.wants[..k] + [th.wants[k]];
    assert th.wants[..|th.wants|] == th.wants;
    GainRetakes(s, t, th.wants[k], pc);
  }

  lemma ValidationRetakes(s: State, t: nat, now: int)
    requires LocksOk(s) && t < |s.threads| && (s.threads[t].pc == Check || s.threads[t].pc == Recheck)
    ensures Retakes(s, Step(s, t, now, true), t)
  {
    EndRetakes(s, t, false);
    if Validates(s, s.threads[t], now) {
      if s.threads[t].pc == Check { StayRetakes(s, t, TakeRoot); }
      else { StayRetakes(s, t, Prepare(now, s.records[s.threads[t].job.id])); }
    }
  }

  lemma RootRetakes(s: State, t: nat)
    requires LocksOk(s) && t < |s.threads| && s.threads[t].pc == TakeRoot
    ensures Retakes(s, Step(s, t, 0, true), t)
  {
    EndRetakes(s, t, false);
    var s' := At(s, t, Recheck);
    forall l ensures OwnedBy(s', l, t) <==> Holds(s'.threads[t], l) {
      assert OwnedBy(s, l, t) <==> Holds(s.threads[t], l);
    }
  }

  lemma WriteRetakes(s: State, t: nat, ok: bool)
    requires LocksOk(s) && t < |s.threads|
    requires var pc := s.threads[t].pc; pc.Prepare? || pc.Write? || pc.Handing?
    ensures Retakes(s, Step(s, t, 0, ok), t)
  {
    var pc := s.threads[t].pc;
    EndRetakes(s, t, false);
    if pc.Prepare? { StayRetakes(s, t, Write(pc.at, pc.current)); }
    else if pc.Write? { StayRetakes(s, t, Handing(pc.at, pc.current.(phase := Consumed, consumedAt := Some(pc.at)))); }
    else { StayRetakes(s, t, InBody); }
  }

  lemma BeginRetakes(s: State, t: nat)
    requires LocksOk(s) && t < |s.threads| && s.threads[t].pc == Begin
    ensures Step(s, t, 0, true) == s || Retakes(s, Step(s, t, 0, true), t)
  {
    var id := s.threads[t].job.id;
    if id !in s.locks { GainRetakes(s, t, id, First); }
  }

  /** A step that blocks changes nothing; every other step retakes. */
  lemma StepRetakes(s: State, t: nat, now: int, ok: bool)
    requires LocksOk(s) && t < |s.threads|
    ensures Step(s, t, now, ok) == s || Retakes(s, Step(s, t, now, ok), t)
  {
    var th := s.threads[t];
    match th.pc
    case Begin => BeginRetakes(s, t);
    case First => FirstRetakes(s, t);
    case Acquire(k) =>
      assert Shaped(th);
      if th.wants[k] !in s.locks { AcquireRetakes(s, t); }
    case Check => ValidationRetakes(s, t, now);
    case TakeRoot => RootRetakes(s, t);
    case Recheck => ValidationRetakes(s, t, now);
    case Prepare(_, _) => WriteRetakes(s, t, ok);
    case Write(_, _) => WriteRetakes(s, t, ok);
    case Handing(_, _) => WriteRetakes(s, t, ok);
    case InBody => EndRetakes(s, t, true);
    case CancelWrite(_) => EndRetakes(s, t, ok);
    case Finished(_) =>
  }

  lemma NextKeepsLocks(s: State, e: Event)
    requires LocksOk(s)
    ensures LocksOk(Next(s, e))
  {
    match e
    case Run(t, now, ok) =>
      if t < |s.threads| {
        StepRetakes(s, t, now, ok);
        if Step(s, t, now, ok) != s { RetakesKeeps(s, Step(s, t, now, ok), t); }
      }
    case Crash(t) => if t < |s.threads| { EndRetakes(s, t, false); RetakesKeeps(s, Ended(s, t, false), t); }
    case Spawn(job) => SpawnKeepsLocks(s, job);
    case Issue(a) =>
  }

  lemma SpawnKeepsLocks(s: State, job: Job)
    requires LocksOk(s)
    ensures LocksOk(Next(s, Spawn(job)))
  {
  }

  // ---------------------------------------------------------------- the records

  /** Consumed in time, after its predecessor. */
  predicate Spent(records: map<Id, Auth>, lockFiles: map<Id, LockIdentity>, a: Auth, at: int) {
    a.phase == Consumed && a.consumedAt == Some(at) && at < a.expiresAt && PredecessorOk(records, lockFiles, a)
  }

  /** Validated under the locks the thread still holds, and not written since. */
  predicate Unspent(records: map<Id, Auth>, lockFiles: map<Id, LockIdentity>, th: Thread, a: Auth, at: int) {
    && th.job.id in records && records[th.job.id] == a && th.job.nonce == a.nonce
    && a.phase == Issued && at < a.expiresAt && PredecessorOk(records, lockFiles, a)
  }

  predicate NotHanded(handed: seq<Yielded>, id: Id) {
    forall y :: y in handed ==> y.record.id != id
  }

  /** What a thread may rely on at its place. */
  predicate ThreadOk(s: State, th: Thread) {
    match th.pc
    case Prepare(at, a) => Unspent(s.records, s.lockFiles, th, a, at)
    case Write(at, a) => Unspent(s.records, s.lockFiles, th, a, at)
    case Handing(at, written) =>
      && th.job.id in s.records && s.records[th.job.id] == written
      && Spent(s.records, s.lockFiles, written, at) && NotHanded(s.handed, th.job.id) && written.nonce == th.job.nonce
    case CancelWrite(a) => th.job.id in s.records && s.records[th.job.id] == a && a.phase == Issued && th.job.nonce == a.nonce
    case _ => true
  }

  /** What was handed out is durably consumed, exactly as it was handed out, to a caller with its nonce. */
  predicate HandedOk(s: State, y: Yielded) {
    && y.record.id in s.records && s.records[y.record.id] == y.record && y.nonce == y.record.nonce
    && Spent(s.records, s.lockFiles, y.record, y.at)
  }

  predicate NoRepeat(handed: seq<Yielded>) {
    forall i, j :: 0 <= i < j < |handed| ==> handed[i].record.id != handed[j].record.id
  }

  predicate Keyed(records: map<Id, Auth>) {
    forall id :: id in records ==> records[id].id == id
  }

  predicate RecordsOk(s: State) {
    && Keyed(s.records) && NoRepeat(s.handed)
    && (forall t :: 0 <= t < |s.threads| ==> ThreadOk(s, s.threads[t]))
    && (forall y :: y in s.handed ==> HandedOk(s, y))
  }

  ghost predicate Inv(s: State) {
    LocksOk(s) && RecordsOk(s)
  }

  /** No record disappears, and a consumed or cancelled one never changes again. */
  predicate Settles(before: map<Id, Auth>, after: map<Id, Auth>) {
    forall id :: id in before ==> id in after && (before[id].phase != Issued ==> after[id] == before[id])
  }

  lemma PredecessorStays(before: map<Id, Auth>, after: map<Id, Auth>, lockFiles: map<Id, LockIdentity>, a: Auth)
    requires Settles(before, after) && PredecessorOk(before, lockFiles, a)
    ensures PredecessorOk(after, lockFiles, a)
  {
  }

  /** A write of the record id by thread t, which holds its lock. */
  predicate Writes(s: State, s': State, id: Id) {
    && s'.lockFiles == s.lockFiles && s'.handed == s.handed
    && id in s.records && s.records[id].phase == Issued
    && id in s'.records && s'.records == s.records[id := s'.records[id]] && s'.records[id].id == id
  }

  lemma WritesSettle(s: State, s': State, id: Id)
    requires Writes(s, s', id)
    ensures Settles(s.records, s'.records)
  {
  }

  /** A thread that relies on its record holds its lock, so a write elsewhere does not touch it. */
  lemma OtherThreadStays(s: State, s': State, id: Id, th: Thread)
    requires Writes(s, s', id) && ThreadOk(s, th) && th.job.id != id
    ensures ThreadOk(s', th)
  {
  }

  /** The places at which a thread relies on its record. */
  predicate Relies(pc: Pc) {
    pc.Prepare? || pc.Write? || pc.Handing? || pc.CancelWrite?
  }

  lemma ReliantHolds(s: State, t: nat)
    requires LocksOk(s) && t < |s.threads| && Relies(s.threads[t].pc)
    ensures OwnedBy(s, s.threads[t].job.id, t)
  {
  }

  lemma WriteKeepsRecords(s: State, s': State, t: nat)
    requires Inv(s) && t < |s.threads| == |s'.threads| && Relies(s.threads[t].pc)
    requires Writes(s, s', s.threads[t].job.id)
    requires forall u :: 0 <= u < |s.threads| && u != t ==> s'.threads[u] == s.threads[u]
    requires ThreadOk(s', s'.threads[t])
    ensures RecordsOk(s')
  {
    var id := s.threads[t].job.id;
    ReliantHolds(s, t);
    forall u | 0 <= u < |s'.threads| ensures ThreadOk(s', s'.threads[u]) {
      if u != t && Relies(s.threads[u].pc) {
        ReliantHolds(s, u);
        OtherThreadStays(s, s', id, s.threads[u]);
      }
    }
    WritesSettle(s, s', id);
    forall y | y in s'.handed ensures HandedOk(s', y) {
      PredecessorStays(s.records, s'.records, s.lockFiles, y.record);
    }
  }

  /** A step that writes nothing. */
  lemma QuietKeepsRecords(s: State, s': State, t: nat)
    requires RecordsOk(s) && t < |s.threads| == |s'.threads|
    requires s'.records == s.records && s'.lockFiles == s.lockFiles && s'.handed == s.handed
    requires forall u :: 0 <= u < |s.threads| && u != t ==> s'.threads[u] == s.threads[u]
    requires ThreadOk(s', s'.threads[t])
    ensures RecordsOk(s')
  {
  }

  lemma HandingKeepsRecords(s: State, t: nat)
    requires Inv(s) && t < |s.threads| && s.threads[t].pc.Handing?
    ensures RecordsOk(Step(s, t, 0, true))
  {
  }

  /** The write that consumes. */
  lemma ConsumeKeepsRecords(s: State, t: nat)
    requires Inv(s) && t < |s.threads| && s.threads[t].pc.Write?
    ensures var s' := Step(s, t, 0, true); RecordsOk(s') && Settles(s.records, s'.records)
  {
    var th := s.threads[t];
    var id, a, at := th.job.id, th.pc.current, th.pc.at;
    var s' := Step(s, t, 0, true);
    assert Unspent(s.records, s.lockFiles, th, a, at);
    assert Writes(s, s', id);
    WritesSettle(s, s', id);
    PredecessorStays(s.records, s'.records, s.lockFiles, a);
    assert NotHanded(s'.handed, id) by {
      forall y | y in s.handed ensures y.record.id != id { assert HandedOk(s, y); }
    }
    WriteKeepsRecords(s, s', t);
  }

  lemma CancelKeepsRecords(s: State, t: nat)
    requires Inv(s) && t < |s.threads| && s.threads[t].pc.CancelWrite?
    ensures var s' := Step(s, t, 0, true); RecordsOk(s') && Settles(s.records, s'.records)
  {
    var s' := Step(s, t, 0, true);
    assert ThreadOk(s, s.threads[t]);
    assert Writes(s, s', s.threads[t].job.id);
    WritesSettle(s, s', s.threads[t].job.id);
    WriteKeepsRecords(s, s', t);
  }

  /** The steps that neither write a record nor hand one out. */
  predicate QuietStep(th: Thread, ok: bool) {
    !th.pc.Handing? && ((th.pc.Write? || th.pc.CancelWrite?) ==> !ok)
  }

  predicate SameData(s: State, s': State) {
    s'.records == s.records && s'.lockFiles == s.lockFiles && s'.handed == s.handed
  }

  lemma FirstIsQuiet(s: State, t: nat)
    requires t < |s.threads|
    ensures SameData(s, FirstStep(s, t))
  {
  }

  lemma QuietStepIsQuiet(s: State, t: nat, now: int, ok: bool)
    requires t < |s.threads| && QuietStep(s.threads[t], ok)
    ensures SameData(s, Step(s, t, now, ok))
  {
    if s.threads[t].pc == First { FirstIsQuiet(s, t); }
  }

  lemma QuietStepFits(s: State, t: nat, now: int, ok: bool)
    requires t < |s.threads| && QuietStep(s.threads[t], ok) && ThreadOk(s, s.threads[t])
    ensures var s' := Step(s, t, now, ok); t < |s'.threads| && ThreadOk(s', s'.threads[t])
  {
    QuietStepIsQuiet(s, t, now, ok);
  }

  lemma StepKeepsRecords(s: State, t: nat, now: int, ok: bool)
    requires Inv(s) && t < |s.threads|
    ensures var s' := Step(s, t, now, ok); RecordsOk(s') && Settles(s.records, s'.records)
  {
    var th := s.threads[t];
    if QuietStep(th, ok) {
      StepRetakes(s, t, now, ok);
      QuietStepIsQuiet(s, t, now, ok);
      QuietStepFits(s, t, now, ok);
      QuietKeepsRecords(s, Step(s, t, now, ok), t);
    } else if th.pc.Write? {
      ConsumeKeepsRecords(s, t);
    } else if th.pc.CancelWrite? {
      CancelKeepsRecords(s, t);
    } else {
      HandingKeepsRecords(s, t);
    }
  }

  lemma IssueKeepsRecords(s: State, a: Auth)
    requires Inv(s)
    ensures var s' := Next(s, Issue(a)); RecordsOk(s') && Settles(s.records, s'.records)
  {
  }

  lemma NextKeepsRecords(s: State, e: Event)
    requires Inv(s)
    ensures RecordsOk(Next(s, e)) && Settles(s.records, Next(s, e).records)
  {
    match e
    case Run(t, now, ok) => if t < |s.threads| { StepKeepsRecords(s, t, now, ok); }
    case Crash(t) => if t < |s.threads| { QuietKeepsRecords(s, Ended(s, t, false), t); }
    case Spawn(job) => SpawnKeepsRecords(s, job);
    case Issue(a) => IssueKeepsRecords(s, a);
  }

  lemma SpawnKeepsRecords(s: State, job: Job)
    requires RecordsOk(s)
    ensures RecordsOk(Next(s, Spawn(job)))
  {
  }

  lemma NextKeeps(s: State, e: Event)
    requires Inv(s)
    ensures Inv(Next(s, e)) && Settles(s.records, Next(s, e).records)
  {
    NextKeepsLocks(s, e);
    NextKeepsRecords(s, e);
  }

  // ---------------------------------------------------------------- every interleaving

  /** No call is running and nothing has been handed out yet; the records may be in any phase. */
  predicate AtRest(s: State) {
    s.threads == [] && s.locks == map[] && s.rootHeld.None? && s.handed == [] && Keyed(s.records)
  }

  lemma SettlesTransitive(a: map<Id, Auth>, b: map<Id, Auth>, c: map<Id, Auth>)
    requires Settles(a, b) && Settles(b, c)
    ensures Settles(a, c)
  {
  }

  /**
   Over every interleaving of consumptions, cancellations, issues and crashes, no record
   disappears and a consumed or cancelled one never changes again.
   */
  lemma {:induction false} TerminalPhasesAreFinal(s: State, events: seq<Event>)
    requires Inv(s)
    ensures Inv(RunAll(s, events)) && Settles(s.records, RunAll(s, events).records)
    decreases |events|
  {
    if events != [] {
      NextKeeps(s, events[0]);
      TerminalPhasesAreFinal(Next(s, events[0]), events[1..]);
      SettlesTransitive(s.records, Next(s, events[0]).records, RunAll(s, events).records);
    }
  }

  lemma AtRestIsInv(s: State)
    requires AtRest(s)
    ensures Inv(s)
  {
  }

  /**
   Each authorization is handed out at most once, to a caller with its nonce, only when its
   consumption is durable, was recorded before its expiry, and follows a consumed predecessor
   with the recorded digest.
   */
  lemma HandedOnce(s: State, events: seq<Event>, i: nat, j: nat)
    requires AtRest(s) && i < |RunAll(s, events).handed| && j < |RunAll(s, events).handed|
    ensures var t := RunAll(s, events);
            && (t.handed[i].record.id == t.handed[j].record.id ==> i == j)
            && HandedOk(t, t.handed[i])
  {
    AtRestIsInv(s);
    TerminalPhasesAreFinal(s, events);
    var t := RunAll(s, events);
    assert t.handed[i] in t.handed;
  }

  /** What a caller was handed stays true for ever: its record and its predecessor's keep their exact content. */
  lemma HandedStaysSpent(s: State, events: seq<Event>, more: seq<Event>, y: Yielded)
    requires AtRest(s) && y in RunAll(s, events).handed
    ensures var t := RunAll(s, events);
            var u := RunAll(t, more);
            && y.record.id in u.records && u.records[y.record.id] == y.record
            && (PredecessorOf(y.record.payload).Some? ==>
                  var q := PredecessorOf(y.record.payload).value;
                  q in u.records && u.records[q].phase == Consumed && y.record.payload.identity == Sha256(u.records[q]))
  {
    AtRestIsInv(s);
    TerminalPhasesAreFinal(s, events);
    var t := RunAll(s, events);
    assert HandedOk(t, y);
    TerminalPhasesAreFinal(t, more);
  }

  // ---------------------------------------------------------------- no deadlock

  /** The flock a thread waits for, if it is at a wait. */
  function Wanted(th: Thread): Option<Id> {
    match th.pc
    case Begin => Some(th.job.id)
    case Acquire(k) => if k < |th.wants| then Some(th.wants[k]) else None
    case _ => None
  }

  predicate Blocked(s: State, t: nat)
    requires t < |s.threads|
  {
    Wanted(s.threads[t]).Some? && Wanted(s.threads[t]).value in s.locks
  }

  /** One past the greatest flock any thread waits for. */
  function Ceiling(threads: seq<Thread>): nat {
    if threads == [] then 0
    else
      var rest := Ceiling(threads[1..]);
      match Wanted(threads[0])
      case None => rest
      case Some(l) => if l < rest then rest else l + 1
  }

  lemma {:induction false} CeilingBounds(threads: seq<Thread>, t: nat)
    requires t < |threads| && Wanted(threads[t]).Some?
    ensures Wanted(threads[t]).value < Ceiling(threads)
  {
    if t > 0 {
      assert threads[t] == threads[1..][t - 1];
      CeilingBounds(threads[1..], t - 1);
    }
  }

  /** A thread that waits while it holds something waits for a greater flock. */
  lemma WaitsUpwards(s: State, u: nat, l: Id)
    requires LocksOk(s) && u < |s.threads| && Holds(s.threads[u], l) && Wanted(s.threads[u]).Some?
    ensures l < Wanted(s.threads[u]).value
  {
  }

  /** Following the owners of wanted flocks upwards ends at a thread that can move. */
  lemma {:induction false} SomeoneMoves(s: State, t: nat) returns (u: nat)
    requires LocksOk(s) && t < |s.threads| && Blocked(s, t)
    ensures u < |s.threads| && !Blocked(s, u) && !s.threads[u].pc.Finished?
    decreases Ceiling(s.threads) - Wanted(s.threads[t]).value
  {
    var l := Wanted(s.threads[t]).value;
    u := s.locks[l];
    assert Holds(s.threads[u], l);
    if Blocked(s, u) {
      WaitsUpwards(s, u, l);
      CeilingBounds(s.threads, u);
      u := SomeoneMoves(s, u);
    }
  }

  /** A thread that is neither blocked nor finished changes its place when it runs. */
  lemma UnblockedMoves(s: State, t: nat, now: int, ok: bool)
    requires t < |s.threads| && !Blocked(s, t) && !s.threads[t].pc.Finished?
    ensures t < |Step(s, t, now, ok).threads| && Step(s, t, now, ok).threads[t].pc != s.threads[t].pc
  {
    match s.threads[t].pc
    case First => FirstMoves(s, t);
    case Check => ValidationMoves(s, t, now, ok);
    case Recheck => ValidationMoves(s, t, now, ok);
    case _ =>
  }

  lemma FirstMoves(s: State, t: nat)
    requires t < |s.threads|
    ensures t < |FirstStep(s, t).threads| && FirstStep(s, t).threads[t].pc != First
  {
  }

  lemma ValidationMoves(s: State, t: nat, now: int, ok: bool)
    requires t < |s.threads| && (s.threads[t].pc == Check || s.threads[t].pc == Recheck)
    ensures t < |Step(s, t, now, ok).threads| && Step(s, t, now, ok).threads[t].pc != s.threads[t].pc
  {
    assert Ended(s, t, false).threads[t].pc == Finished(false);
  }

  /**
   Sorted acquisition admits no deadlock: in every reachable state with an unfinished call,
   some call can take a step, whatever the clock reads.
   */
  lemma NeverDeadlocked(s: State, events: seq<Event>, t: nat, now: int, ok: bool) returns (u: nat)
    requires AtRest(s) && t < |RunAll(s, events).threads| && !RunAll(s, events).threads[t].pc.Finished?
    ensures var r := RunAll(s, events);
            u < |r.threads| && Step(r, u, now, ok) != r
  {
    AtRestIsInv(s);
    TerminalPhasesAreFinal(s, events);
    var r := RunAll(s, events);
    u := t;
    if Blocked(r, t) { u := SomeoneMoves(r, t); }
    UnblockedMoves(r, u, now, ok);
  }
}
