/**
 The rotation as the program runs it, over a directory its statements change in place.
 Every method is proved to compute the function of RotationHeartbeat it is named after; the
 archive it writes is what the copy loop returns, however short its reads are.
 */
module RotationService {
  import opened Wrappers
  import opened RotationHeartbeat

  class RotationEngine {
    var active: Option<seq<Byte>>
    var pending: seq<Moved>
    var copies: seq<Copied>
    var derived: set<nat>
    var zipping: set<nat>
    var archives: seq<Moved>
    var outcomes: seq<Outcome>
    var flow: Flow
    /** How short the next reads are. */
    var choices: seq<nat>
    ghost var moved: seq<Moved>
    ghost var evicted: seq<Moved>

    ghost function Value(): Machine
      reads this
    {
      Machine(Dir(active, pending, copies, derived, zipping, archives, moved, evicted), outcomes, flow)
    }

    constructor (dir: Dir, outcomes: seq<Outcome>, choices: seq<nat>)
      ensures Value() == Machine(dir, outcomes, Live)
    {
      active, pending, copies, derived, zipping, archives := dir.active, dir.pending, dir.copies, dir.derived, dir.zipping, dir.archives;
      this.outcomes, this.choices, flow := outcomes, choices, Live;
      moved, evicted := dir.moved, dir.evicted;
    }

    /** The fate of the next durable effect: whether it takes place, and how the process goes on. */
    method Draw() returns (happens: bool)
      modifies this`outcomes, this`flow
      ensures forall d: Dir ::
                (happens ==> Effect(old(Value()), d) == Machine(d, outcomes, flow))
                && (!happens ==> Effect(old(Value()), d) == Value())
    {
      if flow != Live { return false; }
      if outcomes == [] { return true; }
      var next := outcomes[0];
      outcomes := outcomes[1..];
      match next {
        case Happens => happens := true;
        case Fails(late, caught) =>
          happens := late;
          flow := if caught then Raised else Broken;
        case Dies =>
          happens := false;
          flow := Died;
      }
    }

    method WriteArchive(p: Moved)
      modifies this
      ensures Value() == Archive(old(Value()), p)
    {
      if p.run in derived || p.run in zipping {
        if flow == Live { flow := Raised; }
        return;
      }
      var copy := CopyFixedSnapshot(p.bytes, |p.bytes|, choices);
      assert p.bytes[..|p.bytes|] == p.bytes;
      var copied := Draw();
      if copied { derived := derived + {p.run}; }
      CompressAndPlace(p, copy.value.0);
    }

    /** A file replaced is the one written last; putting an evicted archive back is noted. */
    method CompressAndPlace(p: Moved, lines: seq<Byte>)
      requires lines == WholeLines(p.bytes)
      modifies this
      ensures Value() == Compressed(old(Value()), p)
    {
      var zipped := Draw();
      if zipped { zipping := zipping + {p.run}; }
      ghost var dir := InPlace(Value().dir, p);
      var placed := Draw();
      if placed {
        zipping, archives := zipping - {p.run}, Without(archives, p.run) + [Moved(p.run, lines)];
        evicted := Without(evicted, p.run);
        assert Value().dir == dir;
      }
    }

    method UnlinkDerived(run: nat)
      modifies this
      ensures Value() == DropDerived(old(Value()), run)
    {
      if run in derived {
        var happens := Draw();
        if happens { derived := derived - {run}; }
      }
    }

    method UnlinkPending(run: nat)
      modifies this
      ensures Value() == DropPending(old(Value()), run)
    {
      var happens := Draw();
      if happens { pending := Without(pending, run); }
    }

    /** Rename the log, start a new one, and undo the rename when that fails. */
    method SetLogAside(p: Moved)
      requires flow == Live
      modifies this
      ensures Value() == SetAside(old(Value()), p)
    {
      var renamed := Draw();
      if renamed { active, pending, moved := None, pending + [p], moved + [p]; }
      var created := Draw();
      if created { active := Some([]); }
      if flow == Raised || flow == Broken { UndoRename(p); }
    }

    method UndoRename(p: Moved)
      requires flow == Raised || flow == Broken
      modifies this
      ensures Value() == RollBack(old(Value()), p)
    {
      if pending != [] && pending[|pending| - 1] == p && active.None? {
        flow := Live;
        ghost var dir := RenamedBack(Value().dir, p);
        var undone := Draw();
        if undone {
          active, pending, moved := Some(p.bytes), AllButLast(pending), AllButLast(moved);
          assert Value().dir == dir;
        }
      }
      if flow != Died { flow := Raised; }
    }

    method RotateHeartbeat(run: nat)
      modifies this
      ensures Value() == Rotate(old(Value()), run)
    {
      if flow != Live || active.None? { return; }
      var p := Moved(run, active.value);
      SetLogAside(p);
      WriteArchive(p);
      UnlinkPending(run);
      UnlinkDerived(run);
    }

    method CompressCopy(c: Copied)
      modifies this
      ensures Value() == FinishCopy(old(Value()), c)
    {
      var compressed := Draw();
      var unlinked := Draw();
      if unlinked { copies := WithoutCopy(copies, c); }
      var forgotten := Draw();
    }

    method SnapshotAndTruncate(c: Copied)
      modifies this
      ensures Value() == CopyAndTruncate(old(Value()), c)
    {
      var copied := Draw();
      if copied { copies := Place(copies, c); }
      var recorded := Draw();
      var truncated := Draw();
    }

    method RotateCopying(c: Copied)
      modifies this
      ensures Value() == RotateApplication(old(Value()), c)
    {
      SnapshotAndTruncate(c);
      var marked := Draw();
      if marked { copies := MarkReady(copies, c); }
      CompressCopy(c.(ready := true));
    }

    method CleanDisposableTemps()
      modifies this
      ensures Value() == CleanTemps(old(Value()))
    {
      if derived != {} || zipping != {} {
        var happens := Draw();
        if happens { derived, zipping := {}, {}; }
      }
    }

    method RecoverApplications()
      modifies this
      ensures Value() == RecoverCopies(old(Value()), old(copies))
    {
      var todo := copies;
      var i := 0;
      while i < |todo| && flow == Live
        invariant i <= |todo|
        invariant RecoverCopies(Value(), todo[i..]) == RecoverCopies(old(Value()), todo)
      {
        assert todo[i..][0] == todo[i] && todo[i..][1..] == todo[i + 1..];
        if !todo[i].ready {
          flow := Raised;
          return;
        }
        CompressCopy(todo[i]);
        i := i + 1;
      }
    }

    /** Archive the heartbeats that are pending, oldest first. */
    method RecoverHeartbeats()
      modifies this
      ensures Value() == Recover(old(Value()), old(pending))
    {
      var todo := pending;
      var i := 0;
      while i < |todo| && flow == Live
        invariant i <= |todo|
        invariant Recover(Value(), todo[i..]) == Recover(old(Value()), todo)
      {
        assert todo[i..][0] == todo[i] && todo[i..][1..] == todo[i + 1..];
        WriteArchive(todo[i]);
        UnlinkDerived(todo[i].run);
        UnlinkPending(todo[i].run);
        i := i + 1;
      }
    }

    /** The handler of the target check: an error it knows does not end the run. */
    method CheckCopying(due: bool, log: Application, run: nat)
      modifies this
      ensures Value() == CheckApplication(old(Value()), due, log, run)
    {
      if due {
        var live := flow == Live;
        RotateCopying(Copied(log, run, false));
        if live && flow == Raised { flow := Live; }
      }
    }

    method CheckRenaming(due: bool, run: nat)
      modifies this
      ensures Value() == CheckHeartbeat(old(Value()), due, run)
    {
      if due {
        var live := flow == Live;
        RotateHeartbeat(run);
        if live && flow == Raised { flow := Live; }
      }
    }

    /** Unlink so many of the oldest archives. */
    method UnlinkOldest(count: nat)
      modifies this
      ensures Value() == Evict(old(Value()), count)
    {
      var n := count;
      while n > 0 && flow == Live
        invariant Evict(Value(), n) == Evict(old(Value()), count)
      {
        if archives != [] {
          var happens := Draw();
          if happens { archives, evicted := archives[1..], evicted + [archives[0]]; }
        }
        n := n - 1;
      }
    }

    method ApplyRetention(limit: nat, cut: nat)
      modifies this
      ensures Value() == Retain(old(Value()), limit, cut)
    {
      UnlinkOldest(Excess(|archives|, limit));
      UnlinkOldest(cut);
    }

    method RecoverAll()
      modifies this
      ensures Value() == RecoverPending(old(Value()))
    {
      RecoverApplications();
      RecoverHeartbeats();
    }

    /** Every log that is due and had nothing to recover. */
    method CheckAll(plan: Plan, ghost start: Dir, outPending: bool, errPending: bool, nothingPending: bool, run: nat)
      requires outPending == PendingFor(start.copies, Stdout) && errPending == PendingFor(start.copies, Stderr)
      requires nothingPending == (start.pending == [])
      modifies this
      ensures Value() == CheckTargets(old(Value()), start, run, plan)
    {
      CheckCopying(plan.stdout && !outPending, Stdout, run);
      CheckCopying(plan.stderr && !errPending, Stderr, run);
      CheckRenaming(plan.heartbeat && nothingPending, run);
    }

    method RunLocked(run: nat, plan: Plan)
      modifies this
      ensures Value() == RunOnce(old(Value()), run, plan)
    {
      CleanDisposableTemps();
      ghost var start := Value().dir;
      var outPending := PendingFor(copies, Stdout);
      var errPending := PendingFor(copies, Stderr);
      var nothingPending := pending == [];
      RecoverAll();
      CheckAll(plan, start, outPending, errPending, nothingPending, run);
      ApplyRetention(plan.limit, plan.cut);
    }
  }
}
