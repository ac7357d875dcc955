/**
 The deleter as the program runs it: a root directory, a pending directory and a journal
 file that the statements change in place, with the exception handler around them. Every
 method is proved to compute the function of RetentionApply it is named after.
 */
module RetentionService {
  import opened Wrappers
  import opened RetentionSelect
  import opened RetentionApply

  class TempRetentionApplyService {
    var root: map<string, Package>
    var pending: map<string, Folder>
    var journal: Option<seq<Progress>>
    var outcomes: seq<Outcome>
    var flow: Flow

    function OnDisk(): Disk
      reads this
    {
      Disk(root, pending, journal)
    }

    ghost function Value(): Run
      reads this
    {
      Run(OnDisk(), outcomes, flow)
    }

    constructor (d: Disk, outcomes: seq<Outcome>)
      ensures Value() == Run(d, outcomes, Live)
    {
      root, pending, journal := d.root, d.pending, d.journal;
      this.outcomes, flow := outcomes, Live;
    }

    /** The fate of the next durable effect: whether it takes place, and how the process goes on. */
    method Draw() returns (happens: bool)
      requires flow == Live
      modifies this
      ensures OnDisk() == old(OnDisk())
      ensures forall d: Disk :: (happens ==> Effect(old(Value()), d) == Run(d, outcomes, flow))
                                && (!happens ==> Effect(old(Value()), d) == Value())
    {
      if outcomes == [] { return true; }
      var next := outcomes[0];
      outcomes := outcomes[1..];
      if next == Fails || next == FailsLate {
        flow := Raised;
      } else if next == Dies {
        flow := Died;
      }
      happens := next == Happens || next == FailsLate;
    }

    method PersistProgress(i: nat, before: Progress, p: Progress) returns (after: Progress)
      modifies this
      ensures Work(Value(), after) == Save(old(Work(Value(), before)), i, p)
    {
      if flow != Live { return before; }
      var happens := Draw();
      if happens && journal.Some? && i < |journal.value| { journal := Some(journal.value[i := p]); }
      after := p;
    }

    method MoveToPending(progress: Progress)
      modifies this
      ensures Work(Value(), progress) == Move(old(Work(Value(), progress)))
    {
      if flow != Live { return; }
      var id := progress.id;
      if id in root {
        if id in pending {
          flow := Raised;
          return;
        }
        var happens := Draw();
        if happens { root, pending := root - {id}, pending[id := FilesFrom(root[id], 0)]; }
      } else if id !in pending {
        flow := Raised;
      }
    }

    method RenameCandidate(i: nat, progress: Progress) returns (after: Progress)
      modifies this
      ensures Work(Value(), after) == RenamePart(old(Work(Value(), progress)), i)
    {
      after := progress;
      if progress.stage == Planned || progress.stage == RenameStarted {
        if progress.stage == Planned { after := PersistProgress(i, after, after.(stage := RenameStarted)); }
        MoveToPending(after);
        after := PersistProgress(i, after, after.(stage := Pending));
      }
    }

    method OpenPending(i: nat, progress: Progress) returns (after: Progress)
      modifies this
      ensures Work(Value(), after) == OpenPart(old(Work(Value(), progress)), i)
    {
      after := PersistProgress(i, progress, progress.(stage := DeleteStarted));
      if flow == Live && after.id !in pending { flow := Raised; }
    }

    function Listing(id: string): Folder
      reads this
    {
      if id in pending then pending[id] else map[]
    }

    method AnnounceUnlink(i: nat, progress: Progress, expected: Package) returns (after: Progress)
      modifies this
      ensures Work(Value(), after) == MarkUnlink(old(Work(Value(), progress)), i, expected)
    {
      after := progress;
      if flow == Live && !progress.unlinkStarted {
        if Listing(progress.id) != FilesFrom(expected, progress.fileIndex) {
          flow := Raised;
        } else {
          after := PersistProgress(i, progress, progress.(unlinkStarted := true));
        }
      }
    }

    method UnlinkFile(progress: Progress, expected: Package)
      modifies this
      ensures Work(Value(), progress) == Unlink(old(Work(Value(), progress)), expected)
    {
      var k, folder := progress.fileIndex, Listing(progress.id);
      if flow != Live || k !in folder { return; }
      if folder[k] != Digest(expected, k) {
        flow := Raised;
        return;
      }
      var happens := Draw();
      if happens { pending := pending[progress.id := folder - {k}]; }
    }

    /** One file after the other, from wherever the journal says the deletion stands. */
    method DeleteFiles(i: nat, progress: Progress, expected: Package) returns (after: Progress)
      modifies this
      ensures Work(Value(), after) == FileLoop(old(Work(Value(), progress)), i, expected)
    {
      after := progress;
      while flow == Live && after.fileIndex < FILES
        invariant FileLoop(Work(Value(), after), i, expected) == FileLoop(old(Work(Value(), progress)), i, expected)
        decreases if flow == Live && after.fileIndex < FILES then FILES - after.fileIndex else 0
      {
        IterationAdvances(Work(Value(), after), i, expected);
        after := AnnounceUnlink(i, after, expected);
        UnlinkFile(after, expected);
        after := PersistProgress(i, after, after.(fileIndex := after.fileIndex + 1, unlinkStarted := false));
      }
    }

    method RemoveDirectory(i: nat, progress: Progress) returns (after: Progress)
      modifies this
      ensures Work(Value(), after) == RemovePart(old(Work(Value(), progress)), i)
    {
      after := progress;
      if progress.removal == Ready { after := PersistProgress(i, progress, progress.(removal := RmdirStarted)); }
      if flow == Live && after.id in pending {
        if pending[after.id] != map[] {
          flow := Raised;
        } else {
          var happens := Draw();
          if happens { pending := pending - {after.id}; }
        }
      }
      after := PersistProgress(i, after, after.(stage := Deleted, removal := Completed));
    }

    /** The handler around one candidate: record that cleanup is required, swallow what that raises, and raise on. */
    method HandleFailure(i: nat, progress: Progress) returns (after: Progress)
      modifies this
      ensures Work(Value(), after) == Handled(old(Work(Value(), progress)), i)
    {
      after := progress;
      if flow == Raised {
        flow := Live;
        after := PersistProgress(i, progress, progress.(stage := CleanupRequired));
        if flow != Died { flow := Raised; }
      }
    }

    method DeleteCandidate(i: nat, progress: Progress, expected: Package) returns (after: Progress)
      modifies this
      ensures Work(Value(), after) == ApplyCandidate(old(Work(Value(), progress)), i, expected)
    {
      after := RenameCandidate(i, progress);
      after := OpenPending(i, after);
      after := DeleteFiles(i, after, expected);
      after := RemoveDirectory(i, after);
      after := HandleFailure(i, after);
    }

    method CreateJournal(plan: Plan)
      requires flow == Live
      modifies this
      ensures Value() == (if old(journal).None? then Effect(old(Value()), old(OnDisk()).(journal := Some(Blanks(plan.candidates))))
                          else old(Value()))
    {
      if journal.None? {
        var happens := Draw();
        if happens { journal := Some(Blanks(plan.candidates)); }
      }
    }

    method DeleteCandidates(plan: Plan)
      modifies this
      ensures Value() == CandidateLoop(old(Value()), plan, 0)
    {
      var i := 0;
      while flow == Live && journal.Some? && i < |journal.value| && i < |plan.candidates|
        invariant CandidateLoop(Value(), plan, i) == CandidateLoop(old(Value()), plan, 0)
        decreases |plan.candidates| - i
      {
        var progress := journal.value[i];
        if progress.stage != Deleted {
          var expected := Find(plan.packages, progress.id);
          if expected.None? {
            flow := Raised;
            return;
          }
          var _ := DeleteCandidate(i, progress, expected.value);
        }
        i := i + 1;
      }
    }

    method ApplyPlan(plan: Plan)
      requires flow == Live
      modifies this
      ensures Value() == Apply(old(OnDisk()), plan, old(outcomes))
    {
      if !Acceptable(OnDisk(), plan) {
        flow := Raised;
        return;
      }
      CreateJournal(plan);
      DeleteCandidates(plan);
    }
  }
}
