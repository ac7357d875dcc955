/**
 The isolated restore verification and its cleanup (backend/app/deploy/restore_verify.py,
 restore_recovery.py and the recovery-phase table of backup_models.py): a durable record
 that moves ahead of every effect on a generated database, and a cleanup that drops a
 database only when its comment is the one the recorded phase allows. Every durable effect
 draws its outcome from a schedule; when the schedule is used up, everything works.
 */
module Restore {
  import opened Wrappers

  datatype Phase =
    | Planned | CreateStarted | DatabaseCreated | IdentityCommitStarted | IdentityCommitted
    | RestoreStarted | RestoreFailed | VerificationFailed | VerificationPassed | DropFailed

  predicate Allowed(from: Phase, to: Phase) {
    match from
    case Planned => to == CreateStarted
    case CreateStarted => to == DatabaseCreated
    case DatabaseCreated => to == IdentityCommitStarted
    case IdentityCommitStarted => to == IdentityCommitted
    case IdentityCommitted => to == RestoreStarted
    case RestoreStarted => to == RestoreFailed || to == VerificationFailed || to == VerificationPassed
    case VerificationPassed => to == DropFailed
    case _ => false
  }

  /** The generated database, known by its comment. */
  datatype Database = Database(comment: Option<string>)

  /** What is on disk and on the server for one verification. */
  datatype Residue = Residue(target: Option<Database>, snapshot: bool, record: Option<Phase>)

  const NOTHING := Residue(None, false, None)

  datatype Outcome = Happens | Fails | FailsLate | Cancels | Dies

  datatype Flow = Live | Died | Raised | Cancelled | Returned(passed: bool)

  /** held is the record in memory. */
  datatype Machine = Machine(env: Residue, outcomes: seq<Outcome>, flow: Flow, held: Option<Phase>)

  datatype RestoreExit = Succeeds | ExitsNonZero | Throws

  /** What the checks against the outside report. */
  datatype Outside = Outside(owned: bool, current: bool, snapshotMatches: bool, restore: RestoreExit, verifies: bool,
                             connections: nat, prepared: nat)

  /** No other user of the generated database. */
  predicate Undisturbed(o: Outside) {
    o.owned && o.connections == 0 && o.prepared == 0
  }

  // ---------------------------------------------------------------- statements

  function Effect(m: Machine, env: Residue): Machine {
    if m.flow != Live then m
    else if m.outcomes == [] then m.(env := env)
    else
      var rest := m.outcomes[1..];
      match m.outcomes[0]
      case Happens => m.(env := env, outcomes := rest)
      case Fails => m.(outcomes := rest, flow := Raised)
      case FailsLate => m.(env := env, outcomes := rest, flow := Raised)
      case Cancels => m.(outcomes := rest, flow := Cancelled)
      case Dies => m.(outcomes := rest, flow := Died)
  }

  function Require(m: Machine, ok: bool): Machine {
    if m.flow == Live && !ok then m.(flow := Raised) else m
  }

  /** Write the next phase; the copy in memory follows only when the write returns. */
  function Advance(m: Machine, phase: Phase): Machine {
    if m.flow != Live then m
    else if m.held.None? || !Allowed(m.held.value, phase) then m.(flow := Raised)
    else
      var m1 := Effect(m, m.env.(record := Some(phase)));
      if m1.flow == Live then m1.(held := Some(phase)) else m1
  }

  function WritePlanned(m: Machine): Machine {
    Effect(m.(held := Some(Planned)), m.env.(record := Some(Planned)))
  }

  predicate Created(env: Residue, o: Outside) {
    env.target.Some? && o.owned && env.target.value.comment.None?
  }

  predicate Identified(env: Residue, o: Outside, token: string) {
    env.target.Some? && o.owned && env.target.value.comment == Some(token)
  }

  predicate DropSafe(env: Residue, o: Outside, token: string) {
    Identified(env, o, token) && o.connections == 0 && o.prepared == 0
  }

  // ---------------------------------------------------------------- the run

  /** Plan, create, identify. */
  function CreatePart(m: Machine, o: Outside, token: string): Machine {
    var m1 := Advance(WritePlanned(m), CreateStarted);
    var m2 := Effect(m1, m1.env.(target := Some(Database(None))));
    var m3 := Advance(Require(m2, Created(m2.env, o)), DatabaseCreated);
    var m4 := Advance(m3, IdentityCommitStarted);
    var m5 := Effect(m4, m4.env.(target := Some(Database(Some(token)))));
    Advance(Require(m5, Identified(m5.env, o, token)), IdentityCommitted)
  }

  /** Remove the snapshot whatever happens; what the removal raises is swallowed unless it ends the process. */
  function RemoveQuietly(m: Machine, after: Flow): Machine {
    var m1 := Effect(m, m.env.(snapshot := false));
    if m.flow == Live && m1.flow != Died && m1.flow != Cancelled then m1.(flow := after) else m1
  }

  function SnapshotPart(m: Machine, o: Outside): Machine {
    var m1 := Require(m, o.current);
    var m2 := Effect(m1, m1.env.(snapshot := true));
    var m3 := if o.snapshotMatches then m2 else Require(Effect(m2, m2.env.(snapshot := false)), false);
    Advance(m3, RestoreStarted)
  }

  function RestorePart(m: Machine, o: Outside): Machine {
    if o.restore == Throws then RemoveQuietly(m, Raised)
    else
      var m1 := Effect(m, m.env.(snapshot := false));
      if o.restore == ExitsNonZero then
        var m2 := Advance(m1, RestoreFailed);
        if m2.flow == Live then m2.(flow := Returned(false)) else m2
      else m1
  }

  function VerifyPart(m: Machine, o: Outside, token: string): Machine {
    var m1 := Require(m, Identified(m.env, o, token));
    if o.verifies then Advance(m1, VerificationPassed) else Require(Advance(m1, VerificationFailed), false)
  }

  /** Drop; a refusal by the server is recorded before it is raised. */
  function DropPart(m: Machine, o: Outside, token: string): Machine {
    var m1 := Require(m, DropSafe(m.env, o, token));
    var m2 := Effect(m1, m1.env.(target := None));
    if m1.flow == Live && m2.flow == Raised then Require(Advance(m2.(flow := Live), DropFailed), false) else m2
  }

  function FinishPart(m: Machine): Machine {
    var m1 := if m.env.snapshot then Effect(m, m.env.(snapshot := false)) else m;
    var m2 := Effect(m1, m1.env.(record := None));
    if m2.flow == Live then m2.(flow := Returned(true)) else m2
  }

  /** A cancelled restore is recorded as failed, if that can be written. */
  function CancelHandler(m: Machine): Machine {
    if m.flow == Cancelled && m.held == Some(RestoreStarted) then
      var m1 := Advance(m.(flow := Live), RestoreFailed);
      if m1.flow == Died then m1 else m1.(flow := Cancelled)
    else m
  }

  /** Everything up to a verified database. */
  function VerifiedPart(outcomes: seq<Outcome>, o: Outside, token: string): Machine {
    var m1 := SnapshotPart(CreatePart(Machine(NOTHING, outcomes, Live, None), o, token), o);
    VerifyPart(RestorePart(m1, o), o, token)
  }

  function RunVerification(outcomes: seq<Outcome>, o: Outside, token: string): Machine {
    CancelHandler(FinishPart(DropPart(VerifiedPart(outcomes, o, token), o, token)))
  }

  // ---------------------------------------------------------------- the cleanup

  /** Phases in which the database may be gone although the record is still there. */
  predicate MayBeAbsent(p: Phase) {
    p == Planned || p == CreateStarted || p == VerificationPassed || p == DropFailed
  }

  /** The comments a database may carry to be dropped in this phase. */
  predicate CommentAllowed(p: Phase, comment: Option<string>, token: string) {
    match p
    case Planned => false
    case CreateStarted => comment.None?
    case DatabaseCreated => comment.None?
    case IdentityCommitStarted => comment.None? || comment == Some(token)
    case _ => comment == Some(token)
  }

  function RemoveOwnedSnapshot(m: Machine): Machine {
    if m.env.snapshot then Effect(m, m.env.(snapshot := false)) else m
  }

  function CleanupDrop(m: Machine, phase: Phase, o: Outside, token: string): Machine {
    var ok := m.env.target.Some? && o.owned && CommentAllowed(phase, m.env.target.value.comment, token)
              && o.connections == 0 && o.prepared == 0;
    var m1 := RemoveOwnedSnapshot(Require(m, ok));
    var m2 := Effect(m1, m1.env.(target := None));
    if m1.flow == Live && m2.flow == Raised && phase == VerificationPassed
    then Require(Advance(m2.(flow := Live), DropFailed), false) else m2
  }

  function Cleanup(env: Residue, outcomes: seq<Outcome>, o: Outside, token: string): Machine {
    var m := Machine(env, outcomes, Live, env.record);
    if env.record.None? then m.(flow := Raised)
    else
      var phase := env.record.value;
      var m1 := if env.target.None? then RemoveOwnedSnapshot(Require(m, MayBeAbsent(phase))) else CleanupDrop(m, phase, o, token);
      var m2 := Effect(m1, m1.env.(record := None));
      if m2.flow == Live then m2.(flow := Returned(true)) else m2
  }

  // ---------------------------------------------------------------- what the phases promise

  /** The database and snapshot a recorded phase allows for. */
  predicate PhaseHolds(env: Residue, token: string) {
    match env.record
    case None => env.target.None? && !env.snapshot
    case Some(p) =>
      match p
      case Planned => env.target.None? && !env.snapshot
      case CreateStarted => !env.snapshot && (env.target.None? || env.target.value.comment.None?)
      case DatabaseCreated => !env.snapshot && env.target == Some(Database(None))
      case IdentityCommitStarted =>
        !env.snapshot && (env.target == Some(Database(None)) || env.target == Some(Database(Some(token))))
      case VerificationPassed => env.target.None? || env.target.value.comment == Some(token)
      case DropFailed => env.target.None? || env.target.value.comment == Some(token)
      case _ => env.target == Some(Database(Some(token)))
  }

  /** Going on in phase p, with the database in this state. */
  predicate GoingIn(m: Machine, p: Phase, target: Option<Database>, token: string) {
    && PhaseHolds(m.env, token)
    && (m.flow == Live ==> m.held == Some(p) && m.env.record == Some(p) && m.env.target == target)
    && (m.flow == Cancelled && m.held == Some(RestoreStarted) ==> PhaseHolds(m.env.(record := Some(RestoreFailed)), token))
  }

  lemma EffectGoes(m: Machine, p: Phase, target: Option<Database>, env: Residue, token: string)
    requires GoingIn(m, p, target, token)
    requires m.flow == Live ==> env.record == Some(p) && PhaseHolds(env, token)
    ensures GoingIn(Effect(m, env), p, env.target, token)
    ensures Effect(m, env).flow == Returned(true) ==> m.flow == Returned(true)
    ensures m.outcomes == [] && m.flow == Live ==> Effect(m, env) == m.(env := env)
  {
  }

  lemma AdvanceGoes(m: Machine, p: Phase, p': Phase, target: Option<Database>, token: string)
    requires GoingIn(m, p, target, token) && Allowed(p, p')
    requires m.flow == Live ==> PhaseHolds(m.env.(record := Some(p')), token)
    ensures GoingIn(Advance(m, p'), p', target, token)
    ensures Advance(m, p').flow == Returned(true) ==> m.flow == Returned(true)
  {
  }

  lemma RequireGoes(m: Machine, p: Phase, target: Option<Database>, ok: bool, token: string)
    requires GoingIn(m, p, target, token)
    ensures GoingIn(Require(m, ok), p, target, token)
    ensures Require(m, ok).flow == Returned(true) ==> m.flow == Returned(true)
  {
  }

  lemma CreateGoes(outcomes: seq<Outcome>, o: Outside, token: string)
    ensures GoingIn(CreatePart(Machine(NOTHING, outcomes, Live, None), o, token), IdentityCommitted, Some(Database(Some(token))), token)
    ensures CreatePart(Machine(NOTHING, outcomes, Live, None), o, token).flow != Returned(true)
  {
    var m0 := WritePlanned(Machine(NOTHING, outcomes, Live, None));
    assert GoingIn(m0, Planned, None, token);
    var m1 := Advance(m0, CreateStarted);
    AdvanceGoes(m0, Planned, CreateStarted, None, token);
    var named, marked := Some(Database(None)), Some(Database(Some(token)));
    var m2 := Effect(m1, m1.env.(target := named));
    EffectGoes(m1, CreateStarted, None, m1.env.(target := named), token);
    RequireGoes(m2, CreateStarted, named, Created(m2.env, o), token);
    var m3 := Advance(Require(m2, Created(m2.env, o)), DatabaseCreated);
    AdvanceGoes(Require(m2, Created(m2.env, o)), CreateStarted, DatabaseCreated, named, token);
    var m4 := Advance(m3, IdentityCommitStarted);
    AdvanceGoes(m3, DatabaseCreated, IdentityCommitStarted, named, token);
    var m5 := Effect(m4, m4.env.(target := marked));
    EffectGoes(m4, IdentityCommitStarted, named, m4.env.(target := marked), token);
    RequireGoes(m5, IdentityCommitStarted, marked, Identified(m5.env, o, token), token);
    AdvanceGoes(Require(m5, Identified(m5.env, o, token)), IdentityCommitStarted, IdentityCommitted, marked, token);
  }

  lemma SnapshotGoes(m: Machine, o: Outside, token: string)
    requires GoingIn(m, IdentityCommitted, Some(Database(Some(token))), token)
    ensures GoingIn(SnapshotPart(m, o), RestoreStarted, Some(Database(Some(token))), token)
    ensures SnapshotPart(m, o).flow == Returned(true) ==> m.flow == Returned(true)
  {
    var t := Some(Database(Some(token)));
    var m1 := Require(m, o.current);
    RequireGoes(m, IdentityCommitted, t, o.current, token);
    var m2 := Effect(m1, m1.env.(snapshot := true));
    EffectGoes(m1, IdentityCommitted, t, m1.env.(snapshot := true), token);
    EffectGoes(m2, IdentityCommitted, t, m2.env.(snapshot := false), token);
    RequireGoes(Effect(m2, m2.env.(snapshot := false)), IdentityCommitted, t, false, token);
    var m3 := if o.snapshotMatches then m2 else Require(Effect(m2, m2.env.(snapshot := false)), false);
    AdvanceGoes(m3, IdentityCommitted, RestoreStarted, t, token);
  }

  lemma RestoreGoes(m: Machine, o: Outside, token: string)
    requires GoingIn(m, RestoreStarted, Some(Database(Some(token))), token)
    ensures GoingIn(RestorePart(m, o), RestoreStarted, Some(Database(Some(token))), token)
    ensures RestorePart(m, o).flow == Returned(true) ==> m.flow == Returned(true)
  {
    var t := Some(Database(Some(token)));
    EffectGoes(m, RestoreStarted, t, m.env.(snapshot := false), token);
    AdvanceGoes(Effect(m, m.env.(snapshot := false)), RestoreStarted, RestoreFailed, t, token);
  }

  lemma VerifyGoes(m: Machine, o: Outside, token: string)
    requires GoingIn(m, RestoreStarted, Some(Database(Some(token))), token)
    ensures GoingIn(VerifyPart(m, o, token), VerificationPassed, Some(Database(Some(token))), token)
    ensures VerifyPart(m, o, token).flow == Returned(true) ==> m.flow == Returned(true)
  {
    var t := Some(Database(Some(token)));
    var m1 := Require(m, Identified(m.env, o, token));
    RequireGoes(m, RestoreStarted, t, Identified(m.env, o, token), token);
    AdvanceGoes(m1, RestoreStarted, VerificationPassed, t, token);
    AdvanceGoes(m1, RestoreStarted, VerificationFailed, t, token);
  }

  lemma DropGoes(m: Machine, o: Outside, token: string)
    requires GoingIn(m, VerificationPassed, Some(Database(Some(token))), token)
    ensures GoingIn(DropPart(m, o, token), VerificationPassed, None, token)
    ensures DropPart(m, o, token).flow == Returned(true) ==> m.flow == Returned(true)
  {
    var t := Some(Database(Some(token)));
    var m1 := Require(m, DropSafe(m.env, o, token));
    RequireGoes(m, VerificationPassed, t, DropSafe(m.env, o, token), token);
    EffectGoes(m1, VerificationPassed, t, m1.env.(target := None), token);
    var m2 := Effect(m1, m1.env.(target := None));
    if m1.flow == Live && m2.flow == Raised {
      AdvanceGoes(m2.(flow := Live), VerificationPassed, DropFailed, m2.env.target, token);
    }
  }

  lemma FinishGoes(m: Machine, token: string)
    requires GoingIn(m, VerificationPassed, None, token)
    ensures PhaseHolds(FinishPart(m).env, token)
    ensures FinishPart(m).flow == Cancelled && FinishPart(m).held == Some(RestoreStarted) ==>
              PhaseHolds(FinishPart(m).env.(record := Some(RestoreFailed)), token)
    ensures FinishPart(m).flow == Returned(true) && m.flow != Returned(true) ==> FinishPart(m).env == NOTHING
  {
  }

  lemma VerifiedGoes(outcomes: seq<Outcome>, o: Outside, token: string)
    ensures GoingIn(VerifiedPart(outcomes, o, token), VerificationPassed, Some(Database(Some(token))), token)
    ensures VerifiedPart(outcomes, o, token).flow != Returned(true)
  {
    var m1 := CreatePart(Machine(NOTHING, outcomes, Live, None), o, token);
    var m2 := SnapshotPart(m1, o);
    CreateGoes(outcomes, o, token);
    SnapshotGoes(m1, o, token);
    RestoreGoes(m2, o, token);
    VerifyGoes(RestorePart(m2, o), o, token);
  }

  lemma HandlerGoes(m: Machine, token: string)
    requires PhaseHolds(m.env, token)
    requires m.flow == Cancelled && m.held == Some(RestoreStarted) ==> PhaseHolds(m.env.(record := Some(RestoreFailed)), token)
    ensures PhaseHolds(CancelHandler(m).env, token)
    ensures CancelHandler(m).flow == Returned(true) ==> CancelHandler(m) == m
  {
  }

  /** Wherever a run is cut, the recorded phase tells the truth about the database and the snapshot. */
  lemma RunLeavesPhase(outcomes: seq<Outcome>, o: Outside, token: string)
    ensures PhaseHolds(RunVerification(outcomes, o, token).env, token)
    ensures RunVerification(outcomes, o, token).flow == Returned(true) ==> RunVerification(outcomes, o, token).env == NOTHING
  {
    var m1 := VerifiedPart(outcomes, o, token);
    var m2 := DropPart(m1, o, token);
    VerifiedGoes(outcomes, o, token);
    DropGoes(m1, o, token);
    FinishGoes(m2, token);
    HandlerGoes(FinishPart(m2), token);
  }

  lemma WorkingCreate(o: Outside, token: string)
    ensures var m := CreatePart(Machine(NOTHING, [], Live, None), o, token);
            if o.owned then m == Machine(Residue(Some(Database(Some(token))), false, Some(IdentityCommitted)), [], Live, Some(IdentityCommitted))
            else m.flow == Raised
  {
  }

  lemma WorkingRestore(m: Machine, o: Outside, token: string)
    requires m == Machine(Residue(Some(Database(Some(token))), false, Some(IdentityCommitted)), [], Live, Some(IdentityCommitted))
    ensures var m' := RestorePart(SnapshotPart(m, o), o);
            if o.current && o.snapshotMatches && o.restore == Succeeds
            then m' == Machine(Residue(Some(Database(Some(token))), false, Some(RestoreStarted)), [], Live, Some(RestoreStarted))
            else m'.flow != Live && m'.flow != Returned(true)
  {
  }

  lemma WorkingEnd(m: Machine, o: Outside, token: string)
    requires m == Machine(Residue(Some(Database(Some(token))), false, Some(RestoreStarted)), [], Live, Some(RestoreStarted)) && o.owned
    ensures FinishPart(DropPart(VerifyPart(m, o, token), o, token)).flow == Returned(true)
            <==> o.verifies && o.connections == 0 && o.prepared == 0
  {
  }

  lemma NotLivePasses(m: Machine, o: Outside, token: string)
    requires m.flow != Live
    ensures RestorePart(SnapshotPart(m, o), o) == m && FinishPart(DropPart(VerifyPart(m, o, token), o, token)) == m
  {
  }

  /** With every effect working, a run passes exactly when every check against the outside does. */
  lemma WorkingRunExactly(o: Outside, token: string)
    ensures RunVerification([], o, token).flow == Returned(true)
            <==> Undisturbed(o) && o.current && o.snapshotMatches && o.restore == Succeeds && o.verifies
  {
    var m1 := CreatePart(Machine(NOTHING, [], Live, None), o, token);
    var m2 := RestorePart(SnapshotPart(m1, o), o);
    WorkingCreate(o, token);
    if o.owned {
      WorkingRestore(m1, o, token);
      if m2.flow == Live { WorkingEnd(m2, o, token); } else { NotLivePasses(m2, o, token); }
    } else {
      NotLivePasses(m1, o, token);
    }
    HandlerKeepsVerdict(FinishPart(DropPart(VerifiedPart([], o, token), o, token)));
  }

  lemma HandlerKeepsVerdict(m: Machine)
    ensures CancelHandler(m).flow == Returned(true) <==> m.flow == Returned(true)
  {
  }

  // ---------------------------------------------------------------- the cleanup, exactly

  /** What a cleanup needs to go through. */
  predicate CleanupPasses(env: Residue, o: Outside, token: string) {
    && env.record.Some?
    && if env.target.None? then MayBeAbsent(env.record.value)
       else Undisturbed(o) && CommentAllowed(env.record.value, env.target.value.comment, token)
  }

  /** An uninterrupted cleanup passes exactly when its guards do; it then leaves nothing, and otherwise changes nothing. */
  lemma CleanupExactly(env: Residue, o: Outside, token: string)
    ensures var m := Cleanup(env, [], o, token);
            && (m.flow == Returned(true) <==> CleanupPasses(env, o, token))
            && (m.flow == Returned(true) ==> m.env == NOTHING)
            && (m.flow != Returned(true) ==> m.env == env)
  {
  }

  /** Under every schedule a cleanup drops only a database whose comment its phase allows, undisturbed by others. */
  lemma CleanupDropsOnlyOwn(env: Residue, outcomes: seq<Outcome>, o: Outside, token: string)
    requires env.target.Some? && Cleanup(env, outcomes, o, token).env.target.None?
    ensures CleanupPasses(env, o, token)
  {
  }

  lemma PhaseAllowsCleanup(env: Residue, o: Outside, token: string)
    requires PhaseHolds(env, token) && env.record.Some? && Undisturbed(o)
    ensures CleanupPasses(env, o, token)
  {
  }

  /**
   Residue freedom: wherever a run is cut, by death, cancellation or a failing effect, either
   nothing is left, or the record is there and one working cleanup leaves nothing.
   */
  lemma ResidueFree(outcomes: seq<Outcome>, o: Outside, after: Outside, token: string)
    requires Undisturbed(after)
    ensures var t := RunVerification(outcomes, o, token).env;
            && (t.record.None? ==> t == NOTHING)
            && (t.record.Some? ==> Cleanup(t, [], after, token).flow == Returned(true) && Cleanup(t, [], after, token).env == NOTHING)
  {
    var t := RunVerification(outcomes, o, token).env;
    RunLeavesPhase(outcomes, o, token);
    if t.record.Some? {
      PhaseAllowsCleanup(t, after, token);
      CleanupExactly(t, after, token);
    }
  }

  /** What a cut cleanup can leave of an incident its phase told the truth about. */
  predicate CutCleanup(env: Residue, after: Residue) {
    && (after.target == env.target || after.target.None?)
    && (after.snapshot ==> env.snapshot)
    && (after.record == env.record || after.record.None? || after.record == Some(DropFailed))
    && (after.record == Some(DropFailed) && env.record != Some(DropFailed) ==> env.record == Some(VerificationPassed))
    && (after.record.None? ==> after == NOTHING)
  }

  lemma CleanupCut(env: Residue, outcomes: seq<Outcome>, o: Outside, token: string)
    requires PhaseHolds(env, token) && env.record.Some?
    ensures CutCleanup(env, Cleanup(env, outcomes, o, token).env)
  {
    var m := Machine(env, outcomes, Live, env.record);
    if env.target.Some? {
      var m1 := CleanupDrop(m, env.record.value, o, token);
      DropCut(m, env.record.value, o, token);
    }
  }

  lemma DropCut(m: Machine, phase: Phase, o: Outside, token: string)
    requires m.flow == Live && m.held == Some(phase) && m.env.record == Some(phase) && m.env.target.Some?
    ensures var m' := CleanupDrop(m, phase, o, token);
            && (m'.env.target == m.env.target || m'.env.target.None?) && (m'.env.snapshot ==> m.env.snapshot)
            && (m'.env.record == m.env.record || (m'.env.record == Some(DropFailed) && phase == VerificationPassed))
            && (m'.flow == Live ==> m'.env == Residue(None, false, Some(phase)))
  {
  }

  /**
   The cleanup's own window: cut between the drop and the deletion of the record, it can be
   repeated exactly when the phase is one in which the database may be absent.
   */
  lemma CutCleanupRepeats(env: Residue, outcomes: seq<Outcome>, o: Outside, after: Outside, token: string)
    requires PhaseHolds(env, token) && env.record.Some? && Undisturbed(after)
    ensures var t := Cleanup(env, outcomes, o, token).env;
            t.record.Some? ==>
              (Cleanup(t, [], after, token).flow == Returned(true) <==> t.target.Some? || MayBeAbsent(t.record.value))
  {
    var t := Cleanup(env, outcomes, o, token).env;
    CleanupCut(env, outcomes, o, token);
    CleanupExactly(t, after, token);
  }

  // ---------------------------------------------------------------- reaching the cleanup's window

  /** So many effects happen, then the process dies. */
  function DiesAfter(n: nat): seq<Outcome> {
    if n == 0 then [Dies] else [Happens] + DiesAfter(n - 1)
  }

  /** How a run is cut to be left in a phase behind the created database and before a passed verification. */
  function CutIn(p: Phase): seq<Outcome> {
    match p
    case DatabaseCreated => DiesAfter(4)
    case IdentityCommitStarted => DiesAfter(5)
    case IdentityCommitted => DiesAfter(7)
    case RestoreStarted => DiesAfter(10)
    case _ => []
  }

  /** What the outside reports to such a run. */
  function Reported(p: Phase): Outside {
    Outside(true, true, true, if p == RestoreFailed then ExitsNonZero else Succeeds, p != VerificationFailed, 0, 0)
  }

  /** After one more effect that happens. */
  lemma NextHappens(m: Machine, n: nat, env: Residue)
    requires m.flow == Live && m.outcomes == DiesAfter(n + 1)
    ensures Effect(m, env) == m.(env := env, outcomes := DiesAfter(n))
  {
    assert m.outcomes == [Happens] + DiesAfter(n);
    assert m.outcomes[1..] == DiesAfter(n);
  }

  /** The creation up to the recorded database. */
  lemma CutToCreated(o: Outside, token: string, n: nat)
    requires o.owned
    ensures var m := Advance(WritePlanned(Machine(NOTHING, DiesAfter(n + 4), Live, None)), CreateStarted);
            var m2 := Effect(m, m.env.(target := Some(Database(None))));
            Advance(Require(m2, Created(m2.env, o)), DatabaseCreated)
            == Machine(Residue(Some(Database(None)), false, Some(DatabaseCreated)), DiesAfter(n), Live, Some(DatabaseCreated))
  {
    var m0 := Machine(NOTHING, DiesAfter(n + 4), Live, Some(Planned));
    NextHappens(m0, n + 3, NOTHING.(record := Some(Planned)));
    var m1 := Machine(Residue(None, false, Some(Planned)), DiesAfter(n + 3), Live, Some(Planned));
    NextHappens(m1, n + 2, m1.env.(record := Some(CreateStarted)));
    var m2 := Machine(Residue(None, false, Some(CreateStarted)), DiesAfter(n + 2), Live, Some(CreateStarted));
    NextHappens(m2, n + 1, m2.env.(target := Some(Database(None))));
    var m3 := Machine(Residue(Some(Database(None)), false, Some(CreateStarted)), DiesAfter(n + 1), Live, Some(CreateStarted));
    NextHappens(m3, n, m3.env.(record := Some(DatabaseCreated)));
  }

  /** A creation with so many effects to live after the created database. */
  lemma CutCreation(o: Outside, token: string, n: nat)
    requires o.owned && (n == 0 || n == 1 || n >= 3)
    ensures var m := CreatePart(Machine(NOTHING, DiesAfter(n + 4), Live, None), o, token);
            && (n == 0 ==> m.flow == Died && m.env == Residue(Some(Database(None)), false, Some(DatabaseCreated)))
            && (n == 1 ==> m.flow == Died && m.env == Residue(Some(Database(None)), false, Some(IdentityCommitStarted)))
            && (n >= 3 ==> m == Machine(Residue(Some(Database(Some(token))), false, Some(IdentityCommitted)), DiesAfter(n - 3), Live,
                                        Some(IdentityCommitted)))
  {
    CutToCreated(o, token, n);
    var m3 := Machine(Residue(Some(Database(None)), false, Some(DatabaseCreated)), DiesAfter(n), Live, Some(DatabaseCreated));
    if n > 0 {
      var m4 := Machine(Residue(Some(Database(None)), false, Some(IdentityCommitStarted)), DiesAfter(n - 1), Live, Some(IdentityCommitStarted));
      NextHappens(m3, n - 1, m3.env.(record := Some(IdentityCommitStarted)));
      assert Advance(m3, IdentityCommitStarted) == m4;
      if n > 1 {
        var m5 := m4.(env := m4.env.(target := Some(Database(Some(token)))), outcomes := DiesAfter(n - 2));
        NextHappens(m4, n - 2, m5.env);
        NextHappens(m5, n - 3, m5.env.(record := Some(IdentityCommitted)));
      }
    }
  }

  /** What follows a creation. */
  function Rest(m: Machine, o: Outside, token: string): Machine {
    CancelHandler(FinishPart(DropPart(VerifyPart(RestorePart(SnapshotPart(m, o), o), o, token), o, token)))
  }

  lemma DiedSkips(m: Machine, o: Outside, token: string)
    requires m.flow == Died
    ensures SnapshotPart(m, o) == m && RestorePart(m, o) == m && VerifyPart(m, o, token) == m
    ensures CancelHandler(FinishPart(DropPart(m, o, token))) == m
  {
  }

  lemma CutSnapshot(m: Machine, o: Outside, token: string)
    requires m == Machine(Residue(Some(Database(Some(token))), false, Some(IdentityCommitted)), [Dies], Live, Some(IdentityCommitted))
    requires o.current
    ensures Rest(m, o, token).env == m.env
  {
    var m1 := m.(outcomes := [], flow := Died);
    assert SnapshotPart(m, o) == m1;
    DiedSkips(m1, o, token);
  }

  lemma CutRestore(m: Machine, o: Outside, token: string)
    requires o.owned && o.current && o.snapshotMatches && o.restore == Succeeds && o.verifies
    requires m == Machine(Residue(Some(Database(Some(token))), false, Some(IdentityCommitted)), DiesAfter(3), Live, Some(IdentityCommitted))
    ensures Rest(m, o, token).env == m.env.(record := Some(RestoreStarted))
  {
    var env := m.env.(record := Some(RestoreStarted));
    NextHappens(m, 2, m.env.(snapshot := true));
    NextHappens(m.(env := m.env.(snapshot := true), outcomes := DiesAfter(2)), 1, env.(snapshot := true));
    var m1 := Machine(env.(snapshot := true), DiesAfter(1), Live, Some(RestoreStarted));
    assert SnapshotPart(m, o) == m1;
    NextHappens(m1, 0, env);
    var m2 := Machine(env, DiesAfter(0), Live, Some(RestoreStarted));
    assert RestorePart(m1, o) == m2;
    var m3 := m2.(outcomes := [], flow := Died);
    assert VerifyPart(m2, o, token) == m3;
    DiedSkips(m3, o, token);
  }

  lemma FailedRestore(o: Outside, token: string)
    requires o.owned && o.current && o.snapshotMatches && ((o.restore == ExitsNonZero) || (o.restore == Succeeds && !o.verifies))
    ensures RunVerification([], o, token).env
            == Residue(Some(Database(Some(token))), false, Some(if o.restore == ExitsNonZero then RestoreFailed else VerificationFailed))
  {
    var m := Machine(Residue(Some(Database(Some(token))), false, Some(IdentityCommitted)), [], Live, Some(IdentityCommitted));
    WorkingCreate(o, token);
    RunIs([], o, token);
    var m1 := m.(env := m.env.(snapshot := true, record := Some(RestoreStarted)), held := Some(RestoreStarted));
    assert SnapshotPart(m, o) == m1;
    assert RestorePart(m1, o).env.record == Some(if o.restore == ExitsNonZero then RestoreFailed else RestoreStarted);
  }

  lemma RunIs(outcomes: seq<Outcome>, o: Outside, token: string)
    ensures RunVerification(outcomes, o, token) == Rest(CreatePart(Machine(NOTHING, outcomes, Live, None), o, token), o, token)
  {
  }

  /** A run cut during the creation. */
  lemma LeftEarly(o: Outside, token: string, n: nat)
    requires o.owned && n <= 1
    ensures RunVerification(DiesAfter(n + 4), o, token).env
            == Residue(Some(Database(None)), false, Some(if n == 0 then DatabaseCreated else IdentityCommitStarted))
  {
    CutCreation(o, token, n);
    DiedSkips(CreatePart(Machine(NOTHING, DiesAfter(n + 4), Live, None), o, token), o, token);
    RunIs(DiesAfter(n + 4), o, token);
  }

  /** A run cut behind the creation. */
  lemma LeftLate(o: Outside, token: string, n: nat)
    requires o.owned && o.current && o.snapshotMatches && o.restore == Succeeds && o.verifies && (n == 3 || n == 6)
    ensures RunVerification(DiesAfter(n + 4), o, token).env
            == Residue(Some(Database(Some(token))), false, Some(if n == 3 then IdentityCommitted else RestoreStarted))
  {
    var m := CreatePart(Machine(NOTHING, DiesAfter(n + 4), Live, None), o, token);
    CutCreation(o, token, n);
    RunIs(DiesAfter(n + 4), o, token);
    if n == 3 { CutSnapshot(m, o, token); } else { CutRestore(m, o, token); }
  }

  /** A run so cut is left in its phase. */
  lemma RunLeftIn(p: Phase, token: string)
    requires !MayBeAbsent(p)
    ensures var env := RunVerification(CutIn(p), Reported(p), token).env;
            env.record == Some(p) && !env.snapshot && env.target.Some? && CommentAllowed(p, env.target.value.comment, token)
  {
    match p
    case DatabaseCreated => LeftEarly(Reported(p), token, 0);
    case IdentityCommitStarted => LeftEarly(Reported(p), token, 1);
    case IdentityCommitted => LeftLate(Reported(p), token, 3);
    case RestoreStarted => LeftLate(Reported(p), token, 6);
    case _ => FailedRestore(Reported(p), token);
  }

  lemma DroppedOnly(env: Residue, p: Phase, o: Outside, token: string)
    requires env.record == Some(p) && !env.snapshot && env.target.Some? && Undisturbed(o)
    requires CommentAllowed(p, env.target.value.comment, token)
    ensures Cleanup(env, [Happens, Dies], o, token).env == Residue(None, false, Some(p))
  {
    var m := Machine(env, [Happens, Dies], Live, env.record);
    assert [Happens, Dies][1..] == [Dies];
    assert CleanupDrop(m, p, o, token) == Machine(env.(target := None), [Dies], Live, env.record);
  }

  lemma AbsentRefused(p: Phase, outcomes: seq<Outcome>, o: Outside, token: string)
    requires !MayBeAbsent(p)
    ensures var env := Residue(None, false, Some(p));
            Cleanup(env, outcomes, o, token).env == env && Cleanup(env, outcomes, o, token).flow == Raised
  {
  }

  /**
   In every phase behind the created database and before a passed verification a run can be
   left, and a cleanup of it cut between the drop and the deletion of the record leaves a
   record no later cleanup gets rid of, whatever its schedule and the outside.
   */
  lemma CleanupWindowReached(p: Phase, o: Outside, token: string)
    requires !MayBeAbsent(p) && Undisturbed(o)
    ensures var env := RunVerification(CutIn(p), Reported(p), token).env;
            var t := Cleanup(env, [Happens, Dies], o, token).env;
            && env.record == Some(p) && t == Residue(None, false, Some(p))
            && forall outcomes, after :: Cleanup(t, outcomes, after, token).env == t && Cleanup(t, outcomes, after, token).flow == Raised
  {
    var env := RunVerification(CutIn(p), Reported(p), token).env;
    RunLeftIn(p, token);
    DroppedOnly(env, p, o, token);
    forall outcomes, after
      ensures Cleanup(Residue(None, false, Some(p)), outcomes, after, token).env == Residue(None, false, Some(p))
      ensures Cleanup(Residue(None, false, Some(p)), outcomes, after, token).flow == Raised
    {
      AbsentRefused(p, outcomes, after, token);
    }
  }
}
