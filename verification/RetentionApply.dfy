/**
 Crash-safe deletion of a plan's candidates (TempRetentionApplyService in
 backend/app/deploy/backup_retention.py): per candidate a journal entry, a rename into
 the pending directory, three files unlinked one by one, and the directory removed.
 Every durable effect draws its outcome from a schedule: it happens, it fails before or
 after it happened, or the process dies at it. When the schedule is used up, storage works.
 */
module RetentionApply {
  import opened Wrappers
  import opened RetentionSelect

  datatype Outcome = Happens | Fails | FailsLate | Dies

  datatype Flow = Live | Died | Raised

  datatype Stage = Planned | RenameStarted | Pending | DeleteStarted | Deleted | CleanupRequired

  datatype Removal = Ready | RmdirStarted | Completed

  datatype Progress = Progress(id: string, stage: Stage, fileIndex: nat, unlinkStarted: bool, removal: Removal)

  /** Files still in a pending directory, by their place in the deletion order, with their digests. */
  type Folder = map<nat, string>

  const FILES := 3

  datatype Disk = Disk(root: map<string, Package>, pending: map<string, Folder>, journal: Option<seq<Progress>>)

  datatype Run = Run(disk: Disk, outcomes: seq<Outcome>, flow: Flow)

  /** The candidate at hand: the run, and the progress value in memory. */
  datatype Work = Work(run: Run, progress: Progress)

  function Digest(p: Package, k: nat): string {
    if k < |p.digests| then p.digests[k] else ""
  }

  /** The files of a package from the k-th on. */
  function FilesFrom(p: Package, k: nat): Folder {
    map j: nat | k <= j < FILES :: Digest(p, j)
  }

  function Find(ps: seq<Package>, id: string): Option<Package> {
    if ps == [] then None else if ps[0].id == id then Some(ps[0]) else Find(ps[1..], id)
  }

  /** Identifiers name packages, and no candidate is listed twice. */
  predicate ValidPlan(plan: Plan) {
    && (forall c :: c in plan.candidates ==> Find(plan.packages, c).Some?)
    && NoDuplicates(plan.candidates)
  }

  predicate NoDuplicates(ids: seq<string>) {
    forall i, j :: 0 <= i < j < |ids| ==> ids[i] != ids[j]
  }

  // ---------------------------------------------------------------- one candidate, statement by statement

  function Entries(d: Disk): seq<Progress> {
    if d.journal.Some? then d.journal.value else []
  }

  function Replaced(d: Disk, i: nat, p: Progress): Disk {
    if i < |Entries(d)| then d.(journal := Some(Entries(d)[i := p])) else d
  }

  /** One durable effect that would leave the disk as d. */
  function Effect(r: Run, d: Disk): Run {
    if r.flow != Live then r
    else if r.outcomes == [] then r.(disk := d)
    else
      var rest := r.outcomes[1..];
      match r.outcomes[0]
      case Happens => r.(disk := d, outcomes := rest)
      case Fails => r.(outcomes := rest, flow := Raised)
      case FailsLate => Run(d, rest, Raised)
      case Dies => r.(outcomes := rest, flow := Died)
  }

  function Fail(w: Work): Work {
    if w.run.flow == Live then w.(run := w.run.(flow := Raised)) else w
  }

  /** The progress value changes in memory, then in the journal. */
  function Save(w: Work, i: nat, p: Progress): Work {
    if w.run.flow != Live then w else Work(Effect(w.run, Replaced(w.run.disk, i, p)), p)
  }

  function Move(w: Work): Work {
    var id, d := w.progress.id, w.run.disk;
    if w.run.flow != Live then w
    else if id in d.root then
      if id in d.pending then Fail(w)
      else w.(run := Effect(w.run, d.(root := d.root - {id}, pending := d.pending[id := FilesFrom(d.root[id], 0)])))
    else if id !in d.pending then Fail(w)
    else w
  }

  function RenamePart(w: Work, i: nat): Work {
    if w.progress.stage == Planned || w.progress.stage == RenameStarted then
      var w1 := if w.progress.stage == Planned then Save(w, i, w.progress.(stage := RenameStarted)) else w;
      var w2 := Move(w1);
      Save(w2, i, w2.progress.(stage := Pending))
    else w
  }

  /** Announce the deletion and open the pending directory. */
  function OpenPart(w: Work, i: nat): Work {
    var w1 := Save(w, i, w.progress.(stage := DeleteStarted));
    if w1.run.flow == Live && w1.progress.id !in w1.run.disk.pending then Fail(w1) else w1
  }

  function FolderOf(w: Work): Folder {
    if w.progress.id in w.run.disk.pending then w.run.disk.pending[w.progress.id] else map[]
  }

  function MarkUnlink(w: Work, i: nat, expected: Package): Work {
    if w.run.flow != Live || w.progress.unlinkStarted then w
    else if FolderOf(w) != FilesFrom(expected, w.progress.fileIndex) then Fail(w)
    else Save(w, i, w.progress.(unlinkStarted := true))
  }

  function Unlink(w: Work, expected: Package): Work {
    var k, folder, d := w.progress.fileIndex, FolderOf(w), w.run.disk;
    if w.run.flow != Live || k !in folder then w
    else if folder[k] != Digest(expected, k) then Fail(w)
    else w.(run := Effect(w.run, d.(pending := d.pending[w.progress.id := folder - {k}])))
  }

  function FileIteration(w: Work, i: nat, expected: Package): Work {
    var w1 := Unlink(MarkUnlink(w, i, expected), expected);
    Save(w1, i, w1.progress.(fileIndex := w1.progress.fileIndex + 1, unlinkStarted := false))
  }

  function FileLoop(w: Work, i: nat, expected: Package): Work
    decreases if w.run.flow == Live && w.progress.fileIndex < FILES then FILES - w.progress.fileIndex else 0
  {
    if w.run.flow != Live || w.progress.fileIndex >= FILES then w
    else
      IterationAdvances(w, i, expected);
      FileLoop(FileIteration(w, i, expected), i, expected)
  }

  lemma IterationAdvances(w: Work, i: nat, expected: Package)
    ensures FileIteration(w, i, expected).run.flow == Live ==>
              FileIteration(w, i, expected).progress.fileIndex == w.progress.fileIndex + 1
  {
  }

  function RemovePart(w: Work, i: nat): Work {
    var w1 := if w.progress.removal == Ready then Save(w, i, w.progress.(removal := RmdirStarted)) else w;
    var d := w1.run.disk;
    var w2 := if w1.run.flow == Live && w1.progress.id in d.pending then
                (if FolderOf(w1) != map[] then Fail(w1)
                 else w1.(run := Effect(w1.run, d.(pending := d.pending - {w1.progress.id}))))
              else w1;
    Save(w2, i, w2.progress.(stage := Deleted, removal := Completed))
  }

  /** The exception handler: try to record that cleanup is required, and raise on. */
  function Handled(w: Work, i: nat): Work {
    if w.run.flow != Raised then w
    else
      var h := Save(w.(run := w.run.(flow := Live)), i, w.progress.(stage := CleanupRequired));
      if h.run.flow == Died then h else h.(run := h.run.(flow := Raised))
  }

  function ApplyCandidate(w: Work, i: nat, expected: Package): Work {
    Handled(RemovePart(FileLoop(OpenPart(RenamePart(w, i), i), i, expected), i), i)
  }

  // ---------------------------------------------------------------- one call

  /** The disk is what the plan and the journal allow. */
  predicate Acceptable(d: Disk, plan: Plan) {
    && (forall id :: id in d.root ==> Find(plan.packages, id) == Some(d.root[id]))
    && (forall p :: p in plan.packages && p.id !in d.root ==> exists e :: e in Entries(d) && e.id == p.id && e.stage != Planned)
    && (forall id :: id in d.pending ==> exists e :: e in Entries(d) && e.id == id && e.stage != Planned && e.stage != Deleted)
  }

  function Blank(id: string): Progress {
    Progress(id, Planned, 0, false, Ready)
  }

  function Blanks(ids: seq<string>): seq<Progress> {
    seq(|ids|, i requires 0 <= i < |ids| => Blank(ids[i]))
  }

  function CandidateLoop(r: Run, plan: Plan, i: nat): Run
    decreases |plan.candidates| - i
  {
    if r.flow != Live || i >= |Entries(r.disk)| || i >= |plan.candidates| then r
    else if Entries(r.disk)[i].stage == Deleted then CandidateLoop(r, plan, i + 1)
    else
      match Find(plan.packages, Entries(r.disk)[i].id)
      case None => r.(flow := Raised)
      case Some(expected) => CandidateLoop(ApplyCandidate(Work(r, Entries(r.disk)[i]), i, expected).run, plan, i + 1)
  }

  function Apply(d: Disk, plan: Plan, outcomes: seq<Outcome>): Run {
    var r := Run(d, outcomes, Live);
    if !Acceptable(d, plan) then r.(flow := Raised)
    else
      var r1 := if d.journal.None? then Effect(r, d.(journal := Some(Blanks(plan.candidates)))) else r;
      CandidateLoop(r1, plan, 0)
  }

  // ---------------------------------------------------------------- what the journal and the disk have to do with each other

  predicate InRoot(d: Disk, id: string) {
    id in d.root && id !in d.pending
  }

  predicate InFolder(d: Disk, p: Package, k: nat) {
    p.id !in d.root && p.id in d.pending && d.pending[p.id] == FilesFrom(p, k)
  }

  predicate Gone(d: Disk, id: string) {
    id !in d.root && id !in d.pending
  }

  predicate Untouched(e: Progress) {
    e.fileIndex == 0 && !e.unlinkStarted && e.removal == Ready
  }

  /** In the middle of a deletion: files before the index gone, the one at it present or announced, the rest intact. */
  predicate Deleting(e: Progress, d: Disk, p: Package) {
    || (e.fileIndex < FILES && e.removal == Ready
        && (InFolder(d, p, e.fileIndex) || (e.unlinkStarted && InFolder(d, p, e.fileIndex + 1))))
    || (e.fileIndex == FILES && !e.unlinkStarted && e.removal != Completed && InFolder(d, p, FILES))
    || (e.fileIndex == FILES && !e.unlinkStarted && e.removal != Ready && Gone(d, p.id))
  }

  /** The entry and the disk agree. The last two cases of the delete stages need a fault of the storage. */
  predicate Fits(e: Progress, d: Disk, p: Package, faults: bool) {
    && e.id == p.id
    && match e.stage
       case Planned => Untouched(e) && InRoot(d, p.id)
       case RenameStarted => Untouched(e) && (InRoot(d, p.id) || InFolder(d, p, 0))
       case Pending => Untouched(e) && InFolder(d, p, 0)
       case DeleteStarted => Deleting(e, d, p) || (faults && Untouched(e) && InRoot(d, p.id))
       case CleanupRequired => (Deleting(e, d, p) && (faults || Gone(d, p.id))) || (faults && Untouched(e) && InRoot(d, p.id))
       case Deleted => e.fileIndex == FILES && !e.unlinkStarted && e.removal == Completed && Gone(d, p.id)
  }

  function Expected(plan: Plan, i: nat): Package
    requires ValidPlan(plan) && i < |plan.candidates|
  {
    assert plan.candidates[i] in plan.candidates;
    Find(plan.packages, plan.candidates[i]).value
  }

  /** Entry k of the journal agrees with the disk. */
  predicate EntryFits(d: Disk, plan: Plan, k: nat, faults: bool)
    requires ValidPlan(plan)
  {
    k < |plan.candidates| && k < |Entries(d)| ==> Fits(Entries(d)[k], d, Expected(plan, k), faults)
  }

  /** Nothing but candidates was ever touched. */
  predicate OthersIntact(d: Disk, plan: Plan) {
    && (forall id :: id in d.root ==> Find(plan.packages, id) == Some(d.root[id]))
    && (forall p :: p in plan.packages && p.id !in plan.candidates ==> p.id in d.root)
    && (forall id :: id in d.pending ==> id in plan.candidates)
  }

  /** Deleted ones first, at most one in progress, then those not yet begun. */
  predicate Shape(j: seq<Progress>) {
    forall a, b :: 0 <= a < b < |j| && j[b].stage != Planned ==> j[a].stage == Deleted
  }

  predicate Inv(d: Disk, plan: Plan, faults: bool) {
    && ValidPlan(plan) && OthersIntact(d, plan)
    && (d.journal.None? ==> d.pending == map[] && forall p :: p in plan.packages ==> p.id in d.root)
    && (d.journal.Some? ==>
          && |Entries(d)| == |plan.candidates| && Shape(Entries(d))
          && forall k :: 0 <= k < |plan.candidates| ==> EntryFits(d, plan, k, faults))
  }

  lemma {:induction false} FoundHasId(ps: seq<Package>, id: string)
    requires Find(ps, id).Some?
    ensures Find(ps, id).value in ps && Find(ps, id).value.id == id
  {
    if ps[0].id != id { FoundHasId(ps[1..], id); }
  }

  /** Two disks that differ at most at one package. */
  ghost predicate SameElsewhere(d: Disk, d': Disk, id: string) {
    && (forall x :: x != id ==> (x in d.root <==> x in d'.root) && (x in d.root ==> d'.root[x] == d.root[x]))
    && (forall x :: x != id ==> (x in d.pending <==> x in d'.pending) && (x in d.pending ==> d'.pending[x] == d.pending[x]))
  }

  lemma FitsElsewhere(e: Progress, d: Disk, d': Disk, p: Package, id: string, faults: bool)
    requires SameElsewhere(d, d', id) && p.id != id
    ensures Fits(e, d, p, faults) <==> Fits(e, d', p, faults)
  {
  }

  /** The candidate at hand is the only one whose entry or files may change. */
  lemma StepKeepsInv(d: Disk, d': Disk, plan: Plan, i: nat, faults: bool)
    requires Inv(d, plan, faults) && d.journal.Some? && d'.journal.Some? && i < |plan.candidates|
    requires SameElsewhere(d, d', plan.candidates[i])
    requires plan.candidates[i] in d'.root ==> plan.candidates[i] in d.root && d'.root[plan.candidates[i]] == d.root[plan.candidates[i]]
    requires |Entries(d')| == |Entries(d)| && forall k :: 0 <= k < |Entries(d)| && k != i ==> Entries(d')[k] == Entries(d)[k]
    requires Shape(Entries(d'))
    requires Fits(Entries(d')[i], d', Expected(plan, i), faults)
    ensures Inv(d', plan, faults)
  {
    var c := plan.candidates[i];
    assert c in plan.candidates;
    forall k | 0 <= k < |plan.candidates| ensures EntryFits(d', plan, k, faults) {
      if k != i {
        assert EntryFits(d, plan, k, faults);
        FoundHasId(plan.packages, plan.candidates[k]);
        FitsElsewhere(Entries(d)[k], d, d', Expected(plan, k), c, faults);
      }
    }
  }

  // ---------------------------------------------------------------- one candidate keeps it

  /** Without faults of the storage the only thing that can go wrong is death. */
  predicate Quiet(outcomes: seq<Outcome>, faults: bool) {
    !faults ==> forall o :: o in outcomes ==> o == Happens || o == Dies
  }

  /** The candidate at hand, between two statements. */
  ghost predicate WorkInv(w: Work, i: nat, plan: Plan, faults: bool) {
    var d := w.run.disk;
    && i < |plan.candidates| && Inv(d, plan, faults) && d.journal.Some? && Quiet(w.run.outcomes, faults)
    && (forall k :: 0 <= k < i ==> Entries(d)[k].stage == Deleted)
    && (forall k :: i < k < |Entries(d)| ==> Entries(d)[k].stage == Planned)
    && w.progress.id == plan.candidates[i]
    && (w.run.flow == Live ==> Entries(d)[i] == w.progress)
    && (w.run.flow == Raised ==> Fits(w.progress.(stage := CleanupRequired), d, Expected(plan, i), faults))
  }

  /** What holds now of the entry at hand. */
  ghost predicate At(w: Work, i: nat, plan: Plan, faults: bool) {
    WorkInv(w, i, plan, faults) && Fits(w.progress, w.run.disk, Expected(plan, i), faults)
  }

  lemma LiveFits(w: Work, i: nat, plan: Plan, faults: bool)
    requires WorkInv(w, i, plan, faults) && w.run.flow == Live
    ensures At(w, i, plan, faults)
  {
    assert EntryFits(w.run.disk, plan, i, faults);
  }

  lemma FaultyIsCleanable(e: Progress, d: Disk, p: Package)
    requires Fits(e, d, p, true)
    ensures Fits(e.(stage := CleanupRequired), d, p, true)
  {
  }

  lemma QuietRaisesNothing(r: Run, d: Disk, faults: bool)
    requires r.flow == Live && Quiet(r.outcomes, faults)
    ensures var r' := Effect(r, d);
            && Quiet(r'.outcomes, faults) && (r'.disk == d || r'.disk == r.disk)
            && (r'.flow == Live ==> r'.disk == d)
            && (!faults ==> r'.flow != Raised)
            && (r.outcomes == [] ==> r' == r.(disk := d))
  {
    if r.outcomes != [] {
      assert r.outcomes[0] in r.outcomes;
      assert forall o :: o in r.outcomes[1..] ==> o in r.outcomes;
    }
  }

  lemma SaveKeeps(w: Work, i: nat, p: Progress, plan: Plan, faults: bool)
    requires WorkInv(w, i, plan, faults) && w.run.flow == Live
    requires Fits(p, w.run.disk, Expected(plan, i), faults)
    ensures var w' := Save(w, i, p);
            && WorkInv(w', i, plan, faults) && w'.progress == p
            && w'.run.disk.root == w.run.disk.root && w'.run.disk.pending == w.run.disk.pending
            && (w.run.outcomes == [] ==> w'.run.flow == Live && w'.run.outcomes == [])
  {
    var d := w.run.disk;
    var d' := Replaced(d, i, p);
    QuietRaisesNothing(w.run, d', faults);
    FoundHasId(plan.packages, plan.candidates[i]);
    FitsSameDisk(p, d, d', Expected(plan, i), faults);
    StepKeepsInv(d, d', plan, i, faults);
    if faults { FaultyIsCleanable(p, d, Expected(plan, i)); }
    FitsSameDisk(p.(stage := CleanupRequired), d, d', Expected(plan, i), faults);
  }

  lemma FitsSameDisk(e: Progress, d: Disk, d': Disk, p: Package, faults: bool)
    requires d.root == d'.root && d.pending == d'.pending
    ensures Fits(e, d, p, faults) <==> Fits(e, d', p, faults)
  {
  }

  /** An effect on the files of the candidate at hand. */
  lemma EffectKeeps(w: Work, i: nat, d': Disk, plan: Plan, faults: bool)
    requires At(w, i, plan, faults) && w.run.flow == Live
    requires d'.journal == w.run.disk.journal && SameElsewhere(w.run.disk, d', plan.candidates[i])
    requires plan.candidates[i] !in d'.root
    requires Fits(w.progress, d', Expected(plan, i), faults)
    ensures var w' := w.(run := Effect(w.run, d'));
            && WorkInv(w', i, plan, faults)
            && (w'.run.flow == Live ==> w'.run.disk == d')
            && (w.run.outcomes == [] ==> w'.run.flow == Live && w'.run.outcomes == [])
  {
    QuietRaisesNothing(w.run, d', faults);
    StepKeepsInv(w.run.disk, d', plan, i, faults);
    if faults {
      FaultyIsCleanable(w.progress, w.run.disk, Expected(plan, i));
      FaultyIsCleanable(w.progress, d', Expected(plan, i));
    }
  }

  lemma MoveKeeps(w: Work, i: nat, plan: Plan, faults: bool)
    requires At(w, i, plan, faults) && w.run.flow == Live && w.progress.stage == RenameStarted
    ensures var w' := Move(w);
            && WorkInv(w', i, plan, faults) && w'.progress == w.progress
            && (w'.run.flow == Live ==> InFolder(w'.run.disk, Expected(plan, i), 0))
            && (w.run.outcomes == [] ==> w'.run.flow == Live && w'.run.outcomes == [])
  {
    var id, d := w.progress.id, w.run.disk;
    FoundHasId(plan.packages, plan.candidates[i]);
    if id in d.root {
      var d' := d.(root := d.root - {id}, pending := d.pending[id := FilesFrom(d.root[id], 0)]);
      EffectKeeps(w, i, d', plan, faults);
    }
  }

  lemma RenameKeeps(w: Work, i: nat, plan: Plan, faults: bool)
    requires WorkInv(w, i, plan, faults) && w.run.flow == Live && w.progress.stage != Deleted
    ensures var w' := RenamePart(w, i);
            && WorkInv(w', i, plan, faults)
            && (w'.run.flow == Live ==>
                  && (w'.progress.stage == Pending || w'.progress.stage == DeleteStarted || w'.progress.stage == CleanupRequired)
                  && (w'.progress.stage == Pending || w' == w))
            && (w.run.outcomes == [] ==> w'.run.flow == Live && w'.run.outcomes == [])
  {
    LiveFits(w, i, plan, faults);
    if w.progress.stage == Planned || w.progress.stage == RenameStarted {
      var w1 := if w.progress.stage == Planned then Save(w, i, w.progress.(stage := RenameStarted)) else w;
      if w.progress.stage == Planned { SaveKeeps(w, i, w.progress.(stage := RenameStarted), plan, faults); }
      if w1.run.flow == Live {
        LiveFits(w1, i, plan, faults);
        MoveKeeps(w1, i, plan, faults);
        var w2 := Move(w1);
        if w2.run.flow == Live { SaveKeeps(w2, i, w2.progress.(stage := Pending), plan, faults); }
      }
    }
  }

  lemma OpenKeeps(w: Work, i: nat, plan: Plan, faults: bool)
    requires WorkInv(w, i, plan, faults) && w.run.flow == Live
    requires w.progress.stage == Pending || w.progress.stage == DeleteStarted || w.progress.stage == CleanupRequired
    ensures var w' := OpenPart(w, i);
            && WorkInv(w', i, plan, faults)
            && (w'.run.flow == Live ==> w'.progress.stage == DeleteStarted && w'.progress.id in w'.run.disk.pending)
            && (w.run.outcomes == [] && w.progress.id in w.run.disk.pending ==> w'.run.flow == Live && w'.run.outcomes == [])
            && (w.progress.id !in w.run.disk.pending ==>
                  w'.run.flow != Live && w'.run.disk.root == w.run.disk.root && w'.run.disk.pending == w.run.disk.pending)
  {
    LiveFits(w, i, plan, faults);
    var e := w.progress.(stage := DeleteStarted);
    SaveKeeps(w, i, e, plan, faults);
    var w1 := Save(w, i, e);
    if w1.run.flow == Live { LiveFits(w1, i, plan, faults); }
  }

  /** Inside the deletion, with the directory open. */
  ghost predicate Opened(w: Work, i: nat, plan: Plan, faults: bool) {
    && At(w, i, plan, faults) && w.run.flow == Live
    && w.progress.stage == DeleteStarted && w.progress.id in w.run.disk.pending
  }

  /** A step inside the deletion: it keeps the invariant, and goes on when storage works. */
  ghost predicate StepsTo(w: Work, w': Work, i: nat, plan: Plan, faults: bool) {
    && WorkInv(w', i, plan, faults)
    && (w'.run.flow == Live ==> Opened(w', i, plan, faults))
    && (w.run.outcomes == [] ==> w'.run.flow == Live && w'.run.outcomes == [])
  }

  lemma MarkKeeps(w: Work, i: nat, plan: Plan, faults: bool)
    requires Opened(w, i, plan, faults) && w.progress.fileIndex < FILES
    ensures var w' := MarkUnlink(w, i, Expected(plan, i));
            && StepsTo(w, w', i, plan, faults)
            && (w'.run.flow == Live ==> w'.progress == w.progress.(unlinkStarted := true))
  {
    FoundHasId(plan.packages, plan.candidates[i]);
    if !w.progress.unlinkStarted {
      SaveKeeps(w, i, w.progress.(unlinkStarted := true), plan, faults);
      var w' := Save(w, i, w.progress.(unlinkStarted := true));
      if w'.run.flow == Live { LiveFits(w', i, plan, faults); }
    }
  }

  lemma FilesFromStep(p: Package, k: nat)
    requires k < FILES
    ensures k in FilesFrom(p, k) && FilesFrom(p, k)[k] == Digest(p, k) && FilesFrom(p, k) - {k} == FilesFrom(p, k + 1)
    ensures k !in FilesFrom(p, k + 1)
  {
  }

  lemma UnlinkKeeps(w: Work, i: nat, plan: Plan, faults: bool)
    requires Opened(w, i, plan, faults) && w.progress.fileIndex < FILES && w.progress.unlinkStarted
    ensures var w' := Unlink(w, Expected(plan, i));
            && StepsTo(w, w', i, plan, faults)
            && (w'.run.flow == Live ==> w'.progress == w.progress
                                        && InFolder(w'.run.disk, Expected(plan, i), w.progress.fileIndex + 1))
  {
    var k, d, p := w.progress.fileIndex, w.run.disk, Expected(plan, i);
    FoundHasId(plan.packages, plan.candidates[i]);
    FilesFromStep(p, k);
    if k in FolderOf(w) {
      var d' := d.(pending := d.pending[p.id := FolderOf(w) - {k}]);
      EffectKeeps(w, i, d', plan, faults);
      var w' := Unlink(w, p);
      if w'.run.flow == Live { LiveFits(w', i, plan, faults); }
    }
  }

  lemma StepsToTransitive(a: Work, b: Work, c: Work, i: nat, plan: Plan, faults: bool)
    requires StepsTo(a, b, i, plan, faults)
    requires if b.run.flow == Live then StepsTo(b, c, i, plan, faults) else c == b
    ensures StepsTo(a, c, i, plan, faults)
  {
  }

  lemma MarkThenUnlinkKeeps(w: Work, i: nat, plan: Plan, faults: bool)
    requires Opened(w, i, plan, faults) && w.progress.fileIndex < FILES
    ensures var w' := Unlink(MarkUnlink(w, i, Expected(plan, i)), Expected(plan, i));
            && StepsTo(w, w', i, plan, faults)
            && (w'.run.flow == Live ==> w'.progress.fileIndex == w.progress.fileIndex
                                        && InFolder(w'.run.disk, Expected(plan, i), w.progress.fileIndex + 1))
  {
    var p := Expected(plan, i);
    MarkKeeps(w, i, plan, faults);
    var w1 := MarkUnlink(w, i, p);
    if w1.run.flow == Live { UnlinkKeeps(w1, i, plan, faults); } else { assert Unlink(w1, p) == w1; }
    StepsToTransitive(w, w1, Unlink(w1, p), i, plan, faults);
  }

  lemma IterationKeeps(w: Work, i: nat, plan: Plan, faults: bool)
    requires Opened(w, i, plan, faults) && w.progress.fileIndex < FILES
    ensures StepsTo(w, FileIteration(w, i, Expected(plan, i)), i, plan, faults)
  {
    var p := Expected(plan, i);
    var w2 := Unlink(MarkUnlink(w, i, p), p);
    var w3 := Save(w2, i, w2.progress.(fileIndex := w2.progress.fileIndex + 1, unlinkStarted := false));
    MarkThenUnlinkKeeps(w, i, plan, faults);
    if w2.run.flow == Live { NextKeeps(w2, i, plan, faults); } else { assert w3 == w2; }
    StepsToTransitive(w, w2, w3, i, plan, faults);
    assert FileIteration(w, i, p) == w3;
  }

  lemma NextKeeps(w: Work, i: nat, plan: Plan, faults: bool)
    requires Opened(w, i, plan, faults) && w.progress.fileIndex < FILES
    requires InFolder(w.run.disk, Expected(plan, i), w.progress.fileIndex + 1)
    ensures StepsTo(w, Save(w, i, w.progress.(fileIndex := w.progress.fileIndex + 1, unlinkStarted := false)), i, plan, faults)
  {
    var next := w.progress.(fileIndex := w.progress.fileIndex + 1, unlinkStarted := false);
    FoundHasId(plan.packages, plan.candidates[i]);
    SaveKeeps(w, i, next, plan, faults);
    if Save(w, i, next).run.flow == Live { LiveFits(Save(w, i, next), i, plan, faults); }
  }

  lemma {:induction false} FileLoopKeeps(w: Work, i: nat, plan: Plan, faults: bool)
    requires Opened(w, i, plan, faults)
    ensures var w' := FileLoop(w, i, Expected(plan, i));
            && StepsTo(w, w', i, plan, faults)
            && (w'.run.flow == Live ==> w'.progress.fileIndex == FILES)
    decreases FILES - w.progress.fileIndex
  {
    if w.progress.fileIndex < FILES {
      IterationKeeps(w, i, plan, faults);
      IterationAdvances(w, i, Expected(plan, i));
      var w1 := FileIteration(w, i, Expected(plan, i));
      if w1.run.flow == Live { FileLoopKeeps(w1, i, plan, faults); }
    }
  }

  lemma RemoveKeeps(w: Work, i: nat, plan: Plan, faults: bool)
    requires Opened(w, i, plan, faults) && w.progress.fileIndex == FILES
    ensures var w' := RemovePart(w, i);
            && WorkInv(w', i, plan, faults)
            && (w'.run.flow == Live ==> w'.progress.stage == Deleted)
            && (w.run.outcomes == [] ==> w'.run.flow == Live && w'.run.outcomes == [])
  {
    var p := Expected(plan, i);
    FoundHasId(plan.packages, plan.candidates[i]);
    assert FilesFrom(p, FILES) == map[];
    var w1 := if w.progress.removal == Ready then Save(w, i, w.progress.(removal := RmdirStarted)) else w;
    if w.progress.removal == Ready { SaveKeeps(w, i, w.progress.(removal := RmdirStarted), plan, faults); }
    if w1.run.flow == Live {
      LiveFits(w1, i, plan, faults);
      RmdirKeeps(w1, i, plan, faults);
    }
  }

  lemma RmdirKeeps(w: Work, i: nat, plan: Plan, faults: bool)
    requires Opened(w, i, plan, faults) && w.progress.fileIndex == FILES && w.progress.removal == RmdirStarted
    requires FolderOf(w) == map[]
    ensures var d' := w.run.disk.(pending := w.run.disk.pending - {w.progress.id});
            var w2 := w.(run := Effect(w.run, d'));
            var w' := Save(w2, i, w2.progress.(stage := Deleted, removal := Completed));
            && WorkInv(w', i, plan, faults)
            && (w'.run.flow == Live ==> w'.progress.stage == Deleted)
            && (w.run.outcomes == [] ==> w'.run.flow == Live && w'.run.outcomes == [])
  {
    var d' := w.run.disk.(pending := w.run.disk.pending - {w.progress.id});
    var w2 := w.(run := Effect(w.run, d'));
    FoundHasId(plan.packages, plan.candidates[i]);
    EffectKeeps(w, i, d', plan, faults);
    if w2.run.flow == Live { SaveKeeps(w2, i, w2.progress.(stage := Deleted, removal := Completed), plan, faults); }
  }

  lemma HandledKeeps(w: Work, i: nat, plan: Plan, faults: bool)
    requires WorkInv(w, i, plan, faults)
    ensures WorkInv(Handled(w, i), i, plan, faults)
    ensures Handled(w, i).run.flow == Live <==> w.run.flow == Live
    ensures w.run.flow == Live ==> Handled(w, i) == w
    ensures Handled(w, i).run.disk.root == w.run.disk.root && Handled(w, i).run.disk.pending == w.run.disk.pending
  {
    if w.run.flow == Raised {
      RaisedKeeps(w, i, plan, faults);
    }
  }

  /** Recording that cleanup is required keeps the invariant, whatever becomes of the write. */
  lemma RaisedKeeps(w: Work, i: nat, plan: Plan, faults: bool)
    requires WorkInv(w, i, plan, faults) && w.run.flow == Raised
    ensures var e := w.progress.(stage := CleanupRequired);
            var h := Save(w.(run := w.run.(flow := Live)), i, e);
            && h.progress == e && Inv(h.run.disk, plan, faults) && WorkInv(h.(run := h.run.(flow := Raised)), i, plan, faults)
            && WorkInv(h.(run := h.run.(flow := Died)), i, plan, faults)
            && h.run.disk.root == w.run.disk.root && h.run.disk.pending == w.run.disk.pending
  {
    var e := w.progress.(stage := CleanupRequired);
    var live := w.run.(flow := Live);
    var d, d' := w.run.disk, Replaced(w.run.disk, i, e);
    FoundHasId(plan.packages, plan.candidates[i]);
    QuietRaisesNothing(live, d', faults);
    FitsSameDisk(e, d, d', Expected(plan, i), faults);
    StepKeepsInv(d, d', plan, i, faults);
  }

  /** Whether another run can finish this candidate: it has not been moved, or it is still in the pending directory. */
  predicate Resumable(e: Progress, d: Disk) {
    e.stage == Planned || e.stage == RenameStarted || e.stage == Deleted || e.id in d.pending
  }

  lemma OpenedGoes(w: Work, i: nat, plan: Plan, faults: bool)
    requires Opened(w, i, plan, faults)
    ensures var w' := RemovePart(FileLoop(w, i, Expected(plan, i)), i);
            && WorkInv(w', i, plan, faults)
            && (w'.run.flow == Live ==> w'.progress.stage == Deleted)
            && (w.run.outcomes == [] ==> w'.run.flow == Live && w'.run.outcomes == [])
  {
    FileLoopKeeps(w, i, plan, faults);
    var w1 := FileLoop(w, i, Expected(plan, i));
    if w1.run.flow == Live { RemoveKeeps(w1, i, plan, faults); }
  }

  /** One candidate: safe under every schedule, finished by working storage exactly when it is resumable. */
  lemma CandidateKeeps(w: Work, i: nat, plan: Plan, faults: bool)
    requires WorkInv(w, i, plan, faults) && w.run.flow == Live && w.progress.stage != Deleted
    ensures var w' := ApplyCandidate(w, i, Expected(plan, i));
            && WorkInv(w', i, plan, faults)
            && (w'.run.flow == Live ==> w'.progress.stage == Deleted)
            && (w.run.outcomes == [] && Resumable(w.progress, w.run.disk) ==> w'.run.flow == Live && w'.run.outcomes == [])
            && (!Resumable(w.progress, w.run.disk) ==> w'.run.flow != Live && w'.run.disk.root == w.run.disk.root
                                                       && w'.run.disk.pending == w.run.disk.pending)
  {
    var p := Expected(plan, i);
    var w1 := RenamePart(w, i);
    LiveFits(w, i, plan, faults);
    RenameKeeps(w, i, plan, faults);
    var w2 := OpenPart(w1, i);
    if w1.run.flow == Live {
      LiveFits(w1, i, plan, faults);
      OpenKeeps(w1, i, plan, faults);
    }
    var w3 := RemovePart(FileLoop(w2, i, p), i);
    if w2.run.flow == Live {
      LiveFits(w2, i, plan, faults);
      OpenedGoes(w2, i, plan, faults);
    }
    HandledKeeps(w3, i, plan, faults);
  }

  // ---------------------------------------------------------------- whole calls

  predicate AllDeleted(d: Disk, plan: Plan) {
    d.journal.Some? && |Entries(d)| == |plan.candidates| && forall k :: 0 <= k < |Entries(d)| ==> Entries(d)[k].stage == Deleted
  }

  predicate AllResumable(d: Disk) {
    forall k :: 0 <= k < |Entries(d)| ==> Resumable(Entries(d)[k], d)
  }

  /** Between two candidates of a call that is still going. */
  ghost predicate LoopInv(r: Run, plan: Plan, i: nat, faults: bool) {
    && Inv(r.disk, plan, faults) && r.disk.journal.Some? && r.flow == Live && Quiet(r.outcomes, faults)
    && i <= |plan.candidates|
    && forall k :: 0 <= k < i ==> Entries(r.disk)[k].stage == Deleted
  }

  lemma WorkStarts(r: Run, plan: Plan, i: nat, faults: bool)
    requires LoopInv(r, plan, i, faults) && i < |plan.candidates| && Entries(r.disk)[i].stage != Deleted
    ensures WorkInv(Work(r, Entries(r.disk)[i]), i, plan, faults)
    ensures Find(plan.packages, Entries(r.disk)[i].id) == Some(Expected(plan, i))
  {
    assert EntryFits(r.disk, plan, i, faults);
    FoundHasId(plan.packages, plan.candidates[i]);
  }

  lemma {:induction false} LoopKeeps(r: Run, plan: Plan, i: nat, faults: bool)
    requires LoopInv(r, plan, i, faults)
    ensures var r' := CandidateLoop(r, plan, i);
            && Inv(r'.disk, plan, faults)
            && (r'.flow == Live ==> AllDeleted(r'.disk, plan))
            && (r.outcomes == [] && AllResumable(r.disk) ==> r'.flow == Live)
            && (!AllResumable(r.disk) ==> r'.flow != Live && !AllResumable(r'.disk))
    decreases |plan.candidates| - i
  {
    if i < |plan.candidates| {
      var e := Entries(r.disk)[i];
      if e.stage == Deleted {
        LoopKeeps(r, plan, i + 1, faults);
      } else {
        var r1 := ApplyCandidate(Work(r, e), i, Expected(plan, i)).run;
        WorkStarts(r, plan, i, faults);
        CandidateStep(r, plan, i, faults);
        assert CandidateLoop(r, plan, i) == CandidateLoop(r1, plan, i + 1);
        if r1.flow == Live { LoopKeeps(r1, plan, i + 1, faults); } else { assert CandidateLoop(r1, plan, i + 1) == r1; }
      }
    }
  }

  /** One turn of the loop over the candidates. */
  lemma CandidateStep(r: Run, plan: Plan, i: nat, faults: bool)
    requires LoopInv(r, plan, i, faults) && i < |plan.candidates| && Entries(r.disk)[i].stage != Deleted
    ensures var r' := ApplyCandidate(Work(r, Entries(r.disk)[i]), i, Expected(plan, i)).run;
            && Inv(r'.disk, plan, faults)
            && (r'.flow == Live ==> LoopInv(r', plan, i + 1, faults) && AllResumable(r'.disk))
            && (r.outcomes == [] && AllResumable(r.disk) ==> r'.flow == Live && r'.outcomes == [])
            && (!AllResumable(r.disk) ==> r'.flow != Live && !AllResumable(r'.disk))
  {
    var w := Work(r, Entries(r.disk)[i]);
    WorkStarts(r, plan, i, faults);
    CandidateKeeps(w, i, plan, faults);
    OnlyThisMatters(r.disk, i);
    if !Resumable(w.progress, r.disk) { StuckStays(w, i, plan, faults); }
  }

  /** Entries behind the one in progress are deleted, those after it not begun. */
  lemma OnlyThisMatters(d: Disk, i: nat)
    requires Shape(Entries(d)) && i < |Entries(d)| && Entries(d)[i].stage != Deleted
    requires forall k :: 0 <= k < i ==> Entries(d)[k].stage == Deleted
    ensures AllResumable(d) <==> Resumable(Entries(d)[i], d)
  {
  }

  lemma NotLiveStays(w: Work, i: nat, expected: Package)
    requires w.run.flow != Live
    ensures RemovePart(FileLoop(w, i, expected), i) == w
  {
  }

  /** A candidate that has vanished, or was never moved but marked for deletion, cannot be finished by any call. */
  lemma StuckStays(w: Work, i: nat, plan: Plan, faults: bool)
    requires WorkInv(w, i, plan, faults) && w.run.flow == Live && !Resumable(w.progress, w.run.disk)
    ensures var w' := ApplyCandidate(w, i, Expected(plan, i));
            w'.run.flow != Live && !AllResumable(w'.run.disk)
  {
    LiveFits(w, i, plan, faults);
    var w1 := OpenPart(w, i);
    OpenKeeps(w, i, plan, faults);
    StuckOpen(w, i);
    NotLiveStays(w1, i, Expected(plan, i));
    StuckHandled(w1, i);
    assert RenamePart(w, i) == w;
  }

  /** The entry at hand keeps its name and one of the two delete stages. */
  predicate Stuck(d: Disk, i: nat, id: string) {
    && i < |Entries(d)| && Entries(d)[i].id == id && id !in d.pending
    && (Entries(d)[i].stage == Pending || Entries(d)[i].stage == DeleteStarted || Entries(d)[i].stage == CleanupRequired)
  }

  lemma StuckOpen(w: Work, i: nat)
    requires w.run.flow == Live && Stuck(w.run.disk, i, w.progress.id)
    ensures var w' := OpenPart(w, i);
            Stuck(w'.run.disk, i, w.progress.id) && w'.progress.id == w.progress.id && w'.run.flow != Live
  {
  }

  lemma StuckHandled(w: Work, i: nat)
    requires Stuck(w.run.disk, i, w.progress.id) && w.run.flow != Live
    ensures var w' := Handled(w, i);
            Stuck(w'.run.disk, i, w.progress.id) && w'.run.flow != Live && !AllResumable(w'.run.disk)
  {
  }

  lemma {:induction false} FoundWhenListed(ps: seq<Package>, p: Package)
    requires p in ps
    ensures Find(ps, p.id).Some?
  {
    if ps[0].id != p.id {
      assert ps == [ps[0]] + ps[1..];
      FoundWhenListed(ps[1..], p);
    }
  }

  /** A disk the protocol has left passes the check of the next call. */
  lemma InvIsAcceptable(d: Disk, plan: Plan, faults: bool)
    requires Inv(d, plan, faults)
    ensures Acceptable(d, plan)
  {
    forall p | p in plan.packages && p.id !in d.root ensures exists e :: e in Entries(d) && e.id == p.id && e.stage != Planned {
      assert p.id in plan.candidates;
      EntryOf(d, plan, p.id, faults);
    }
    forall id | id in d.pending ensures exists e :: e in Entries(d) && e.id == id && e.stage != Planned && e.stage != Deleted {
      EntryOf(d, plan, id, faults);
    }
  }

  lemma EntryOf(d: Disk, plan: Plan, id: string, faults: bool)
    requires Inv(d, plan, faults) && id in plan.candidates && d.journal.Some?
    ensures exists e :: e in Entries(d) && e.id == id
                        && (id !in d.root ==> e.stage != Planned)
                        && (id in d.pending ==> e.stage != Planned && e.stage != Deleted)
  {
    var k :| 0 <= k < |plan.candidates| && plan.candidates[k] == id;
    assert EntryFits(d, plan, k, faults);
    FoundHasId(plan.packages, id);
    assert Entries(d)[k] in Entries(d);
  }

  lemma CreationKeeps(d: Disk, plan: Plan, faults: bool)
    requires Inv(d, plan, faults) && d.journal.None?
    ensures var d' := d.(journal := Some(Blanks(plan.candidates))); Inv(d', plan, faults) && AllResumable(d')
  {
    var d' := d.(journal := Some(Blanks(plan.candidates)));
    forall k | 0 <= k < |plan.candidates| ensures EntryFits(d', plan, k, faults) {
      FoundHasId(plan.packages, plan.candidates[k]);
      assert Expected(plan, k) in plan.packages;
    }
  }

  /** Any call, under any schedule, from any disk the protocol can leave. */
  lemma ApplyKeeps(d: Disk, plan: Plan, outcomes: seq<Outcome>, faults: bool)
    requires Inv(d, plan, faults) && Quiet(outcomes, faults)
    ensures var r := Apply(d, plan, outcomes);
            && Inv(r.disk, plan, faults)
            && (r.flow == Live ==> AllDeleted(r.disk, plan))
            && (outcomes == [] && AllResumable(d) ==> r.flow == Live)
            && (!AllResumable(d) ==> r.flow != Live && !AllResumable(r.disk))
  {
    InvIsAcceptable(d, plan, faults);
    var r := Run(d, outcomes, Live);
    if d.journal.None? {
      var d' := d.(journal := Some(Blanks(plan.candidates)));
      CreationKeeps(d, plan, faults);
      QuietRaisesNothing(r, d', faults);
      if Effect(r, d').flow == Live { LoopKeeps(Effect(r, d'), plan, 0, faults); }
    } else {
      LoopKeeps(r, plan, 0, faults);
    }
  }

  // ---------------------------------------------------------------- every sequence of calls

  function ApplyAll(d: Disk, plan: Plan, schedules: seq<seq<Outcome>>): Disk
    decreases |schedules|
  {
    if schedules == [] then d else ApplyAll(Apply(d, plan, schedules[0]).disk, plan, schedules[1..])
  }

  /** Before the first call: no journal, nothing pending, every package in the root. */
  predicate BeforeApply(d: Disk, plan: Plan) {
    && d.journal.None? && d.pending == map[]
    && (forall id :: id in d.root ==> Find(plan.packages, id) == Some(d.root[id]))
    && (forall p :: p in plan.packages ==> p.id in d.root)
  }

  /** Over all schedules of all calls: shape of the journal, agreement with the disk, nothing else touched. */
  lemma {:induction false} ApplyIsSafe(d: Disk, plan: Plan, schedules: seq<seq<Outcome>>, faults: bool)
    requires Inv(d, plan, faults) && forall s :: s in schedules ==> Quiet(s, faults)
    ensures Inv(ApplyAll(d, plan, schedules), plan, faults)
    decreases |schedules|
  {
    if schedules != [] {
      assert schedules[0] in schedules;
      assert forall s :: s in schedules[1..] ==> s in schedules;
      ApplyKeeps(d, plan, schedules[0], faults);
      ApplyIsSafe(Apply(d, plan, schedules[0]).disk, plan, schedules[1..], faults);
    }
  }

  /** A disk that is not resumable stays so: no later call, under any schedule, finishes the plan. */
  lemma {:induction false} StuckForever(d: Disk, plan: Plan, schedules: seq<seq<Outcome>>)
    requires Inv(d, plan, true) && !AllResumable(d)
    ensures !AllResumable(ApplyAll(d, plan, schedules)) && !AllDeleted(ApplyAll(d, plan, schedules), plan)
    decreases |schedules|
  {
    if schedules != [] {
      ApplyKeeps(d, plan, schedules[0], true);
      StuckForever(Apply(d, plan, schedules[0]).disk, plan, schedules[1..]);
    }
  }

  /** The result the plan promised: no pending directory, and exactly the packages that are no candidates. */
  predicate CarriedOut(d: Disk, plan: Plan) {
    && AllDeleted(d, plan) && d.pending == map[]
    && (forall id :: id in d.root ==> Find(plan.packages, id) == Some(d.root[id]))
    && (forall p :: p in plan.packages ==> (p.id in d.root <==> p.id !in plan.candidates))
  }

  lemma DeletedMeansCarriedOut(d: Disk, plan: Plan, faults: bool)
    requires Inv(d, plan, faults) && AllDeleted(d, plan)
    ensures CarriedOut(d, plan)
  {
    forall c | c in plan.candidates ensures Gone(d, c) {
      var k :| 0 <= k < |plan.candidates| && plan.candidates[k] == c;
      assert EntryFits(d, plan, k, faults);
      FoundHasId(plan.packages, c);
    }
    assert forall id :: id !in d.pending;
  }

  /**
   With working storage the next call carries the plan out exactly when every candidate is
   resumable; otherwise no call ever will.
   */
  lemma ApplyConverges(d: Disk, plan: Plan, schedules: seq<seq<Outcome>>)
    requires BeforeApply(d, plan) && ValidPlan(plan)
    ensures var t := ApplyAll(d, plan, schedules);
            && (Apply(t, plan, []).flow == Live <==> AllResumable(t))
            && (Apply(t, plan, []).flow == Live ==> CarriedOut(Apply(t, plan, []).disk, plan))
  {
    var t := ApplyAll(d, plan, schedules);
    assert Inv(d, plan, true);
    ApplyIsSafe(d, plan, schedules, true);
    ApplyKeeps(t, plan, [], true);
    if Apply(t, plan, []).flow == Live { DeletedMeansCarriedOut(Apply(t, plan, []).disk, plan, true); }
  }

  /**
   When calls are only ever cut by death, the one disk no call recovers from is the one
   between the removal of a directory and the last write of its journal entry.
   */
  lemma DeathsLeaveOneWindow(d: Disk, plan: Plan, schedules: seq<seq<Outcome>>)
    requires BeforeApply(d, plan) && ValidPlan(plan) && forall s :: s in schedules ==> Quiet(s, false)
    ensures var t := ApplyAll(d, plan, schedules);
            AllResumable(t) <==> forall k :: 0 <= k < |Entries(t)| ==> Entries(t)[k].stage == Deleted || !Gone(t, Entries(t)[k].id)
  {
    var t := ApplyAll(d, plan, schedules);
    assert Inv(d, plan, false);
    ApplyIsSafe(d, plan, schedules, false);
    forall k | 0 <= k < |Entries(t)|
      ensures Resumable(Entries(t)[k], t) <==> Entries(t)[k].stage == Deleted || !Gone(t, Entries(t)[k].id)
    {
      assert EntryFits(t, plan, k, false);
    }
  }

  /** A plan that is carried out is a fixed point: another call, under any schedule, changes nothing. */
  lemma CarriedOutIsFinal(d: Disk, plan: Plan, outcomes: seq<Outcome>, faults: bool)
    requires Inv(d, plan, faults) && AllDeleted(d, plan)
    ensures Apply(d, plan, outcomes) == Run(d, outcomes, Live)
  {
    InvIsAcceptable(d, plan, faults);
    LoopSkips(Run(d, outcomes, Live), plan, 0);
  }

  lemma {:induction false} LoopSkips(r: Run, plan: Plan, i: nat)
    requires AllDeleted(r.disk, plan)
    ensures CandidateLoop(r, plan, i) == r
    decreases |plan.candidates| - i
  {
    if i < |plan.candidates| { LoopSkips(r, plan, i + 1); }
  }

  // ---------------------------------------------------------------- the window is reached

  /** n effects that happen. */
  function Working(n: nat): seq<Outcome> {
    if n == 0 then [] else [Happens] + Working(n - 1)
  }

  lemma WorkingStep(r: Run, d: Disk, n: nat, rest: seq<Outcome>)
    requires r.flow == Live && n > 0 && r.outcomes == Working(n) + rest
    ensures Effect(r, d) == Run(d, Working(n - 1) + rest, Live)
  {
  }

  /** A Save that happens leaves the entry in the journal and the files alone. */
  lemma SaveWorks(w: Work, i: nat, p: Progress, n: nat, rest: seq<Outcome>)
    requires w.run.flow == Live && n > 0 && w.run.outcomes == Working(n) + rest && i < |Entries(w.run.disk)|
    ensures var w' := Save(w, i, p);
            && w'.run.flow == Live && w'.run.outcomes == Working(n - 1) + rest && w'.progress == p
            && w'.run.disk == Replaced(w.run.disk, i, p) && |Entries(w'.run.disk)| == |Entries(w.run.disk)|
            && Entries(w'.run.disk)[i] == p
  {
  }

  /** A whole file: announce, unlink, next. */
  lemma FileWorks(w: Work, i: nat, p: Package, n: nat, rest: seq<Outcome>)
    requires w.run.flow == Live && n >= 3 && w.run.outcomes == Working(n) + rest && i < |Entries(w.run.disk)|
    requires w.progress.id == p.id && w.progress.fileIndex < FILES && !w.progress.unlinkStarted
    requires InFolder(w.run.disk, p, w.progress.fileIndex)
    ensures var w' := FileIteration(w, i, p);
            && w'.run.flow == Live && w'.run.outcomes == Working(n - 3) + rest
            && w'.progress == w.progress.(fileIndex := w.progress.fileIndex + 1)
            && |Entries(w'.run.disk)| == |Entries(w.run.disk)| && InFolder(w'.run.disk, p, w'.progress.fileIndex)
  {
    var k := w.progress.fileIndex;
    FilesFromStep(p, k);
    var w1 := MarkUnlink(w, i, p);
    SaveWorks(w, i, w.progress.(unlinkStarted := true), n, rest);
    var d := w1.run.disk;
    var d' := d.(pending := d.pending[p.id := FilesFrom(p, k) - {k}]);
    WorkingStep(w1.run, d', n - 1, rest);
    var w2 := Unlink(w1, p);
    assert w2.run == Run(d', Working(n - 2) + rest, Live);
    SaveWorks(w2, i, w2.progress.(fileIndex := k + 1, unlinkStarted := false), n - 2, rest);
  }

  lemma {:induction false} FilesWork(w: Work, i: nat, p: Package, rest: seq<Outcome>)
    requires w.progress.fileIndex <= FILES && i < |Entries(w.run.disk)|
    requires w.run.flow == Live && w.run.outcomes == Working(2 + 3 * (FILES - w.progress.fileIndex)) + rest
    requires w.progress.id == p.id && !w.progress.unlinkStarted && InFolder(w.run.disk, p, w.progress.fileIndex)
    ensures var w' := FileLoop(w, i, p);
            && w'.run.flow == Live && w'.run.outcomes == Working(2) + rest && w'.progress == w.progress.(fileIndex := FILES)
            && |Entries(w'.run.disk)| == |Entries(w.run.disk)| && InFolder(w'.run.disk, p, FILES)
    decreases FILES - w.progress.fileIndex
  {
    if w.progress.fileIndex < FILES {
      FileWorks(w, i, p, 2 + 3 * (FILES - w.progress.fileIndex), rest);
      FilesWork(FileIteration(w, i, p), i, p, rest);
      assert FileLoop(w, i, p) == FileLoop(FileIteration(w, i, p), i, p);
    }
  }

  /** The directory goes, and the process dies at the last write. */
  lemma RemovalDies(w: Work, i: nat, p: Package)
    requires w.run.flow == Live && w.run.outcomes == Working(2) + [Dies] && i < |Entries(w.run.disk)|
    requires w.progress.id == p.id && w.progress.stage == DeleteStarted && w.progress.removal == Ready
    requires InFolder(w.run.disk, p, FILES)
    ensures var w' := RemovePart(w, i);
            w'.run.flow == Died && Stuck(w'.run.disk, i, p.id)
  {
  }

  lemma MoveWorks(w: Work, p: Package, n: nat, rest: seq<Outcome>)
    requires w.run.flow == Live && n > 0 && w.run.outcomes == Working(n) + rest
    requires w.progress.id == p.id && InRoot(w.run.disk, p.id) && w.run.disk.root[p.id] == p
    ensures var w' := Move(w);
            && w'.run.flow == Live && w'.run.outcomes == Working(n - 1) + rest && w'.progress == w.progress
            && Entries(w'.run.disk) == Entries(w.run.disk) && InFolder(w'.run.disk, p, 0)
  {
  }

  lemma RenameWorks(w: Work, i: nat, p: Package, rest: seq<Outcome>)
    requires w.run.flow == Live && w.run.outcomes == Working(15) + rest && i < |Entries(w.run.disk)|
    requires w.progress == Blank(p.id) && InRoot(w.run.disk, p.id) && w.run.disk.root[p.id] == p
    ensures var w' := RenamePart(w, i);
            && w'.run.flow == Live && w'.run.outcomes == Working(12) + rest && w'.progress == Blank(p.id).(stage := Pending)
            && |Entries(w'.run.disk)| == |Entries(w.run.disk)| && InFolder(w'.run.disk, p, 0)
  {
    var w1 := Save(w, i, w.progress.(stage := RenameStarted));
    SaveWorks(w, i, w.progress.(stage := RenameStarted), 15, rest);
    MoveWorks(w1, p, 14, rest);
    var w2 := Move(w1);
    SaveWorks(w2, i, w2.progress.(stage := Pending), 13, rest);
    assert RenamePart(w, i) == Save(w2, i, w2.progress.(stage := Pending));
  }

  /** Rename, and the announcement of the deletion. */
  lemma BeginWorks(w: Work, i: nat, p: Package, rest: seq<Outcome>)
    requires w.run.flow == Live && w.run.outcomes == Working(15) + rest && i < |Entries(w.run.disk)|
    requires w.progress == Blank(p.id) && InRoot(w.run.disk, p.id) && w.run.disk.root[p.id] == p
    ensures var w' := OpenPart(RenamePart(w, i), i);
            && w'.run.flow == Live && w'.run.outcomes == Working(11) + rest && w'.progress == Blank(p.id).(stage := DeleteStarted)
            && |Entries(w'.run.disk)| == |Entries(w.run.disk)| && InFolder(w'.run.disk, p, 0)
  {
    RenameWorks(w, i, p, rest);
    var w1 := RenamePart(w, i);
    SaveWorks(w1, i, w1.progress.(stage := DeleteStarted), 12, rest);
  }

  /** The first candidate of a first call, once the journal has been created. */
  function FirstWork(d: Disk, plan: Plan, rest: seq<Outcome>): Work
    requires |plan.candidates| > 0
  {
    Work(Run(d.(journal := Some(Blanks(plan.candidates))), rest, Live), Blank(plan.candidates[0]))
  }

  /** A first call whose first candidate does not come to its end is that candidate. */
  lemma FirstCandidateEnds(d: Disk, plan: Plan, rest: seq<Outcome>)
    requires BeforeApply(d, plan) && ValidPlan(plan) && |plan.candidates| > 0
    requires ApplyCandidate(FirstWork(d, plan, rest), 0, Expected(plan, 0)).run.flow != Live
    ensures Apply(d, plan, [Happens] + rest) == ApplyCandidate(FirstWork(d, plan, rest), 0, Expected(plan, 0)).run
  {
    var w := FirstWork(d, plan, rest);
    var w' := ApplyCandidate(w, 0, Expected(plan, 0));
    FoundHasId(plan.packages, plan.candidates[0]);
    InvIsAcceptable(d, plan, true);
    assert ([Happens] + rest)[1..] == rest;
    assert Effect(Run(d, [Happens] + rest, Live), w.run.disk) == w.run;
    assert CandidateLoop(w.run, plan, 0) == CandidateLoop(w'.run, plan, 1) == w'.run;
  }

  lemma StuckIsNotResumable(d: Disk, i: nat, id: string)
    requires Stuck(d, i, id)
    ensures !AllResumable(d)
  {
    assert !Resumable(Entries(d)[i], d);
  }

  lemma FirstCandidateDies(w: Work, p: Package)
    requires w.run.flow == Live && w.run.outcomes == Working(15) + [Dies] && 0 < |Entries(w.run.disk)|
    requires w.progress == Blank(p.id) && InRoot(w.run.disk, p.id) && w.run.disk.root[p.id] == p
    ensures var w' := ApplyCandidate(w, 0, p); w'.run.flow == Died && Stuck(w'.run.disk, 0, p.id)
  {
    BeginWorks(w, 0, p, [Dies]);
    var w1 := OpenPart(RenamePart(w, 0), 0);
    FilesWork(w1, 0, p, [Dies]);
    RemovalDies(FileLoop(w1, 0, p), 0, p);
  }

  /** The first journal write of a candidate fails, and the handler marks it for cleanup although it was never moved. */
  lemma FirstSaveFails(w: Work, p: Package)
    requires w.run.flow == Live && w.run.outcomes == [Fails] && 0 < |Entries(w.run.disk)|
    requires w.progress == Blank(p.id) && InRoot(w.run.disk, p.id)
    ensures var w' := ApplyCandidate(w, 0, p);
            w'.run.flow == Raised && Stuck(w'.run.disk, 0, p.id) && w'.run.disk.root == w.run.disk.root
  {
    var w1 := Save(w, 0, w.progress.(stage := RenameStarted));
    assert w1 == Work(Run(w.run.disk, [], Raised), Blank(p.id).(stage := RenameStarted));
    assert RenamePart(w, 0) == w1 && OpenPart(w1, 0) == w1;
    NotLiveStays(w1, 0, p);
  }

  /**
   For every plan with a candidate there is a death, sixteen effects into the first call,
   after which no later call can carry the plan out.
   */
  lemma WindowIsReached(d: Disk, plan: Plan)
    requires BeforeApply(d, plan) && ValidPlan(plan) && |plan.candidates| > 0
    ensures !AllResumable(Apply(d, plan, Working(16) + [Dies]).disk)
  {
    var rest := Working(15) + [Dies];
    FoundHasId(plan.packages, plan.candidates[0]);
    FirstCandidateDies(FirstWork(d, plan, rest), Expected(plan, 0));
    FirstCandidateEnds(d, plan, rest);
    assert Working(16) + [Dies] == [Happens] + rest;
    StuckIsNotResumable(Apply(d, plan, [Happens] + rest).disk, 0, plan.candidates[0]);
  }

  /** A storage fault before the rename is a second way to a disk no call recovers from: the package is still in the root. */
  lemma FaultWindowIsReached(d: Disk, plan: Plan)
    requires BeforeApply(d, plan) && ValidPlan(plan) && |plan.candidates| > 0
    ensures var t := Apply(d, plan, [Happens, Fails]).disk; !AllResumable(t) && plan.candidates[0] in t.root
  {
    FoundHasId(plan.packages, plan.candidates[0]);
    FirstSaveFails(FirstWork(d, plan, [Fails]), Expected(plan, 0));
    FirstCandidateEnds(d, plan, [Fails]);
    assert [Happens, Fails] == [Happens] + [Fails];
    StuckIsNotResumable(Apply(d, plan, [Happens] + [Fails]).disk, 0, plan.candidates[0]);
  }

  // ---------------------------------------------------------------- together with the selection

  lemma {:induction false} UnprotectedOnce(ps: seq<Package>, protected: set<string>)
    requires Distinct(ps)
    ensures NoDuplicates(Unprotected(ps, protected))
  {
    if ps != [] {
      var rest := Unprotected(ps[1..], protected);
      UnprotectedOnce(ps[1..], protected);
      forall i | 0 <= i < |rest| ensures rest[i] != ps[0].id {
        UnprotectedMember(ps[1..], protected, rest[i]);
        var p :| p in ps[1..] && p.id == rest[i];
        var k :| 0 <= k < |ps[1..]| && ps[1..][k] == p;
        assert ps[k + 1].id != ps[0].id;
      }
    }
  }

  lemma SelectedPlanIsValid(packages: seq<Package>, policy: Policy, reference: int)
    requires Distinct(packages) && PlanFor(packages, policy, reference).Ok?
    ensures ValidPlan(PlanFor(packages, policy, reference).value)
  {
    var plan := PlanFor(packages, policy, reference).value;
    SortedDistinct(packages);
    UnprotectedOnce(Ordered(packages), plan.protected);
    assert plan.candidates == Unprotected(Ordered(packages), plan.protected) && plan.packages == packages;
    forall c | c in plan.candidates ensures Find(packages, c).Some? {
      CandidatesArePackages(packages, policy, reference, c);
      var p :| p in packages && p.id == c;
      FoundWhenListed(packages, p);
    }
  }

  lemma {:induction false} SameBytes(ps: seq<Package>, a: set<string>, b: set<string>)
    requires forall p :: p in ps ==> (p.id in a <==> p.id in b)
    ensures BytesOf(ps, a) == BytesOf(ps, b)
  {
    if ps != [] {
      assert ps[0] in ps;
      assert forall p :: p in ps[1..] ==> p in ps;
      SameBytes(ps[1..], a, b);
    }
  }

  /** A selected plan that has been carried out leaves packages of exactly the promised size. */
  lemma CarriedOutHasPromisedSize(packages: seq<Package>, policy: Policy, reference: int, d: Disk)
    requires Distinct(packages) && PlanFor(packages, policy, reference).Ok?
    requires CarriedOut(d, PlanFor(packages, policy, reference).value)
    ensures BytesOf(packages, d.root.Keys) == PlanFor(packages, policy, reference).value.post
  {
    var plan := PlanFor(packages, policy, reference).value;
    forall p | p in packages ensures p.id in d.root.Keys <==> p.id in plan.protected {
      PartitionsPackages(packages, policy, reference, p);
    }
    SameBytes(packages, d.root.Keys, plan.protected);
    PostIsProtectedBytes(packages, policy, reference);
  }
}
