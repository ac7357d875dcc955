/**
 The restore verification as the program runs it: a server, a snapshot file and a record
 file that the statements change in place. Every method is proved to compute the function
 of Restore it is named after.
 */
module RestoreService {
  import opened Wrappers
  import opened Restore

  class RestoreVerificationService {
    var target: Option<Database>
    var snapshot: bool
    var record: Option<Phase>
    var held: Option<Phase>
    var outcomes: seq<Outcome>
    var flow: Flow

    ghost function Value(): Machine
      reads this
    {
      Machine(Residue(target, snapshot, record), outcomes, flow, held)
    }

    /** A service that finds this residue, with the record it was asked for in memory. */
    constructor (env: Residue, outcomes: seq<Outcome>, held: Option<Phase>)
      ensures Value() == Machine(env, outcomes, Live, held)
    {
      target, snapshot, record := env.target, env.snapshot, env.record;
      this.outcomes, this.held, flow := outcomes, held, Live;
    }

    /** The fate of the next durable effect: whether it takes place, and how the process goes on. */
    method Draw() returns (happens: bool)
      modifies this
      ensures target == old(target) && snapshot == old(snapshot) && record == old(record) && held == old(held)
      ensures forall env: Residue :: (happens ==> Effect(old(Value()), env) == Machine(env, outcomes, flow, held))
                                     && (!happens ==> Effect(old(Value()), env) == Value())
    {
      if flow != Live { return false; }
      if outcomes == [] { return true; }
      var next := outcomes[0];
      outcomes := outcomes[1..];
      if next == Fails || next == FailsLate {
        flow := Raised;
      } else if next == Cancels {
        flow := Cancelled;
      } else if next == Dies {
        flow := Died;
      }
      happens := next == Happens || next == FailsLate;
    }

    method Check(ok: bool)
      modifies this
      ensures Value() == Require(old(Value()), ok)
    {
      if flow == Live && !ok { flow := Raised; }
    }

    method AdvanceRecord(phase: Phase)
      modifies this
      ensures Value() == Advance(old(Value()), phase)
    {
      if flow != Live { return; }
      if held.None? || !Allowed(held.value, phase) {
        flow := Raised;
        return;
      }
      var happens := Draw();
      if happens { record := Some(phase); }
      if flow == Live { held := Some(phase); }
    }

    method SetTarget(t: Option<Database>)
      modifies this
      ensures Value() == Effect(old(Value()), Residue(t, old(snapshot), old(record)))
    {
      var happens := Draw();
      if happens { target := t; }
    }

    method SetSnapshot(present: bool)
      modifies this
      ensures Value() == Effect(old(Value()), Residue(old(target), present, old(record)))
    {
      var happens := Draw();
      if happens { snapshot := present; }
    }

    method WriteRecord()
      modifies this
      ensures Value() == WritePlanned(old(Value()))
    {
      held := Some(Planned);
      var happens := Draw();
      if happens { record := Some(Planned); }
    }

    method DeleteRecord()
      modifies this
      ensures Value() == Effect(old(Value()), Residue(old(target), old(snapshot), None))
    {
      var happens := Draw();
      if happens { record := None; }
    }

    method CreateAndIdentify(o: Outside, token: string)
      modifies this
      ensures Value() == CreatePart(old(Value()), o, token)
    {
      WriteRecord();
      AdvanceRecord(CreateStarted);
      SetTarget(Some(Database(None)));
      Check(target.Some? && o.owned && target.value.comment.None?);
      AdvanceRecord(DatabaseCreated);
      AdvanceRecord(IdentityCommitStarted);
      SetTarget(Some(Database(Some(token))));
      Check(target.Some? && o.owned && target.value.comment == Some(token));
      AdvanceRecord(IdentityCommitted);
    }

    method TakeSnapshot(o: Outside)
      modifies this
      ensures Value() == SnapshotPart(old(Value()), o)
    {
      Check(o.current);
      SetSnapshot(true);
      if !o.snapshotMatches {
        SetSnapshot(false);
        Check(false);
      }
      AdvanceRecord(RestoreStarted);
    }

    method RestoreSnapshot(o: Outside)
      modifies this
      ensures Value() == RestorePart(old(Value()), o)
    {
      var live := flow == Live;
      SetSnapshot(false);
      if o.restore == Throws {
        if live && flow != Died && flow != Cancelled { flow := Raised; }
      } else if o.restore == ExitsNonZero {
        AdvanceRecord(RestoreFailed);
        if flow == Live { flow := Returned(false); }
      }
    }

    method VerifyTarget(o: Outside, token: string)
      modifies this
      ensures Value() == VerifyPart(old(Value()), o, token)
    {
      Check(target.Some? && o.owned && target.value.comment == Some(token));
      if o.verifies {
        AdvanceRecord(VerificationPassed);
      } else {
        AdvanceRecord(VerificationFailed);
        Check(false);
      }
    }

    method DropTarget(o: Outside, token: string)
      modifies this
      ensures Value() == DropPart(old(Value()), o, token)
    {
      Check(target.Some? && o.owned && target.value.comment == Some(token) && o.connections == 0 && o.prepared == 0);
      var live := flow == Live;
      SetTarget(None);
      if live && flow == Raised {
        flow := Live;
        AdvanceRecord(DropFailed);
        Check(false);
      }
    }

    method RunLocked(o: Outside, token: string)
      requires Value() == Machine(NOTHING, outcomes, Live, None)
      modifies this
      ensures Value() == RunVerification(old(outcomes), o, token)
    {
      CreateAndIdentify(o, token);
      TakeSnapshot(o);
      RestoreSnapshot(o);
      VerifyTarget(o, token);
      DropTarget(o, token);
      if snapshot { SetSnapshot(false); }
      DeleteRecord();
      if flow == Live { flow := Returned(true); }
      if flow == Cancelled && held == Some(RestoreStarted) {
        flow := Live;
        AdvanceRecord(RestoreFailed);
        if flow != Died { flow := Cancelled; }
      }
    }

    method DropGuarded(phase: Phase, o: Outside, token: string)
      modifies this
      ensures Value() == CleanupDrop(old(Value()), phase, o, token)
    {
      Check(target.Some? && o.owned && CommentAllowed(phase, target.value.comment, token) && o.connections == 0 && o.prepared == 0);
      if snapshot { SetSnapshot(false); }
      var live := flow == Live;
      SetTarget(None);
      if live && flow == Raised && phase == VerificationPassed {
        flow := Live;
        AdvanceRecord(DropFailed);
        Check(false);
      }
    }

    method CleanupLocked(o: Outside, token: string)
      requires flow == Live && held == record
      modifies this
      ensures Value() == Cleanup(old(Value().env), old(outcomes), o, token)
    {
      if record.None? {
        flow := Raised;
        return;
      }
      var phase := record.value;
      if target.None? {
        Check(MayBeAbsent(phase));
        if snapshot { SetSnapshot(false); }
      } else {
        DropGuarded(phase, o, token);
      }
      DeleteRecord();
      if flow == Live { flow := Returned(true); }
    }
  }
}
