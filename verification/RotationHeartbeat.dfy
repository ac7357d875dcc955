/**
 Rotation of the heartbeat log (backend/app/deploy/rotation_engine.py): a copy that keeps
 whole lines, a rename that moves the log aside, an atomic archive, the recovery of what an
 earlier run left behind, and the retention pass at the end of a run. Of the application
 logs the pending copies are modelled, because they can stop a run. A compressed archive is
 the bytes it decompresses to.
 */
module RotationHeartbeat {
  import opened Wrappers

  type Byte = b: nat | b < 256

  const NEWLINE: Byte := 10

  // ---------------------------------------------------------------- whole lines

  /** The longest prefix that ends with a newline, or nothing. */
  function WholeLines(s: seq<Byte>): seq<Byte> {
    if s == [] then [] else if s[|s| - 1] == NEWLINE then s else WholeLines(s[..|s| - 1])
  }

  predicate LineEnded(s: seq<Byte>) {
    s == [] || s[|s| - 1] == NEWLINE
  }

  /** It is a line-ended prefix, and no newline follows it. */
  lemma {:induction false} WholeLinesIsLongest(s: seq<Byte>)
    ensures var w := WholeLines(s);
            w <= s && LineEnded(w) && forall k :: |w| <= k < |s| ==> s[k] != NEWLINE
  {
    if s != [] && s[|s| - 1] != NEWLINE { WholeLinesIsLongest(s[..|s| - 1]); }
  }

  /** Any line-ended prefix is at most as long. */
  lemma LineEndedIsShorter(s: seq<Byte>, n: nat)
    requires n <= |s| && LineEnded(s[..n])
    ensures n <= |WholeLines(s)|
  {
  }

  lemma WholeLinesByPosition(s: seq<Byte>, n: nat)
    requires n <= |s| && LineEnded(s[..n]) && forall k :: n <= k < |s| ==> s[k] != NEWLINE
    ensures WholeLines(s) == s[..n]
  {
    var w := WholeLines(s);
    WholeLinesIsLongest(s);
    LineEndedIsShorter(s, n);
    assert w == s[..|w|];
    assert |w| > 0 ==> w[|w| - 1] == s[|w| - 1];
  }

  // ---------------------------------------------------------------- the copy loop

  const CHUNK := 1024 * 1024

  datatype CopyError = ReadFailed

  /** Position after the last newline of a chunk, or 0. */
  method AfterLastNewline(chunk: seq<Byte>) returns (n: nat)
    ensures n <= |chunk| && (n > 0 ==> chunk[n - 1] == NEWLINE) && forall k :: n <= k < |chunk| ==> chunk[k] != NEWLINE
  {
    n := |chunk|;
    while n > 0 && chunk[n - 1] != NEWLINE
      invariant n <= |chunk| && forall k :: n <= k < |chunk| ==> chunk[k] != NEWLINE
    {
      n := n - 1;
    }
  }

  /** A read of at most want bytes at position pos: as short as it likes, but nothing only at the end of the file. */
  method Read(source: seq<Byte>, pos: nat, want: nat, choice: nat) returns (chunk: seq<Byte>)
    requires want > 0
    ensures chunk == [] <==> pos >= |source|
    ensures chunk != [] ==> |chunk| <= want && pos + |chunk| <= |source| && chunk == source[pos..pos + |chunk|]
  {
    if pos >= |source| { return []; }
    var most: nat := if want < |source| - pos then want else |source| - pos;
    var length: nat := 1 + choice % most;
    chunk := source[pos..pos + length];
  }

  /** n is the position after the last newline among the first copied bytes, or 0. */
  predicate LastNewlineAt(source: seq<Byte>, copied: nat, n: nat) {
    && n <= copied <= |source| && (n > 0 ==> source[n - 1] == NEWLINE)
    && forall k :: n <= k < copied ==> source[k] != NEWLINE
  }

  lemma ChunkExtends(source: seq<Byte>, copied: nat, before: nat, chunk: seq<Byte>, n: nat)
    requires LastNewlineAt(source, copied, before)
    requires copied + |chunk| <= |source| && chunk == source[copied..copied + |chunk|]
    requires n <= |chunk| && (n > 0 ==> chunk[n - 1] == NEWLINE) && forall k :: n <= k < |chunk| ==> chunk[k] != NEWLINE
    ensures LastNewlineAt(source, copied + |chunk|, if n > 0 then copied + n else before)
    ensures source[..copied + |chunk|] == source[..copied] + chunk
  {
  }

  lemma LastNewlineEndsWholeLines(source: seq<Byte>, size: nat, n: nat)
    requires LastNewlineAt(source, size, n)
    ensures WholeLines(source[..size]) == source[..n]
  {
    assert source[..size][..n] == source[..n];
    WholeLinesByPosition(source[..size], n);
  }

  /**
   Copy the first size bytes and cut the copy after its last newline. The reads may be as
   short as they like; choices says how short.
   */
  method CopyFixedSnapshot(source: seq<Byte>, size: nat, choices: seq<nat>) returns (r: Result<(seq<Byte>, nat, nat), CopyError>)
    ensures size <= |source| ==> r == Ok((WholeLines(source[..size]), size, |WholeLines(source[..size])|))
    ensures size > |source| ==> r == Err(ReadFailed)
  {
    var temp: seq<Byte> := [];
    var copied: nat, lastNewline: nat, turn: nat := 0, 0, 0;
    while copied < size
      invariant copied <= size && copied <= |source| && temp == source[..copied]
      invariant LastNewlineAt(source, copied, lastNewline)
      decreases size - copied
    {
      var want := if CHUNK < size - copied then CHUNK else size - copied;
      var chunk := Read(source, copied, want, if turn < |choices| then choices[turn] else want - 1);
      if chunk == [] { return Err(ReadFailed); }
      var n := AfterLastNewline(chunk);
      ChunkExtends(source, copied, lastNewline, chunk, n);
      temp := temp + chunk;
      if n > 0 { lastNewline := copied + n; }
      copied := copied + |chunk|;
      turn := turn + 1;
    }
    LastNewlineEndsWholeLines(source, size, lastNewline);
    assert temp[..lastNewline] == source[..lastNewline] == WholeLines(source[..size]);
    r := Ok((temp[..lastNewline], copied, lastNewline));
  }

  // ---------------------------------------------------------------- the directory

  /** A log with the run that moved it aside, or the archive made of it. */
  datatype Moved = Moved(run: nat, bytes: seq<Byte>)

  datatype Application = Stderr | Stdout

  /** A pending copy of an application log; ready once its metadata says the log has been truncated. */
  datatype Copied = Copied(log: Application, run: nat, ready: bool)

  /**
   The active log, the log moved aside and not archived yet, the pending copies of the
   application logs in the order of their names, the disposable temporary files of the
   heartbeat, and its archives, last written last. The last two fields are no files but
   history: the segments ever moved aside, and the archives evicted and not put back.
   */
  datatype Dir = Dir(active: Option<seq<Byte>>, pending: seq<Moved>, copies: seq<Copied>, derived: set<nat>, zipping: set<nat>,
                     archives: seq<Moved>, moved: seq<Moved>, evicted: seq<Moved>)

  /** A failing effect happened or not; its error is one the target check catches, or another one. */
  datatype Outcome = Happens | Fails(late: bool, caught: bool) | Dies

  datatype Flow = Live | Died | Raised | Broken

  datatype Machine = Machine(dir: Dir, outcomes: seq<Outcome>, flow: Flow)

  function Effect(m: Machine, dir: Dir): Machine {
    if m.flow != Live then m
    else if m.outcomes == [] then m.(dir := dir)
    else
      var rest := m.outcomes[1..];
      match m.outcomes[0]
      case Happens => Machine(dir, rest, Live)
      case Fails(late, caught) => Machine(if late then dir else m.dir, rest, if caught then Raised else Broken)
      case Dies => m.(outcomes := rest, flow := Died)
  }

  function Raise(m: Machine): Machine {
    if m.flow == Live then m.(flow := Raised) else m
  }

  // ---------------------------------------------------------------- the heartbeat

  function Pack(p: Moved): Moved {
    Moved(p.run, WholeLines(p.bytes))
  }

  function Without(ps: seq<Moved>, run: nat): seq<Moved> {
    if ps == [] then [] else if ps[0].run == run then Without(ps[1..], run) else [ps[0]] + Without(ps[1..], run)
  }

  /** Copy the whole lines, compress them beside, and put the archive in place. */
  function Archive(m: Machine, p: Moved): Machine {
    if p.run in m.dir.derived || p.run in m.dir.zipping then Raise(m)
    else Compressed(Effect(m, m.dir.(derived := m.dir.derived + {p.run})), p)
  }

  function Compressed(m: Machine, p: Moved): Machine {
    var m1 := Effect(m, m.dir.(zipping := m.dir.zipping + {p.run}));
    Effect(m1, InPlace(m1.dir, p))
  }

  function InPlace(d: Dir, p: Moved): Dir {
    d.(zipping := d.zipping - {p.run}, archives := Without(d.archives, p.run) + [Pack(p)], evicted := Without(d.evicted, p.run))
  }

  function DropDerived(m: Machine, run: nat): Machine {
    if run in m.dir.derived then Effect(m, m.dir.(derived := m.dir.derived - {run})) else m
  }

  function DropPending(m: Machine, run: nat): Machine {
    Effect(m, m.dir.(pending := Without(m.dir.pending, run)))
  }

  function AllButLast(ps: seq<Moved>): seq<Moved> {
    if ps == [] then [] else ps[..|ps| - 1]
  }

  function Renamed(d: Dir, p: Moved): Dir {
    d.(active := None, pending := d.pending + [p], moved := d.moved + [p])
  }

  function RenamedBack(d: Dir, p: Moved): Dir {
    d.(active := Some(p.bytes), pending := AllButLast(d.pending), moved := AllButLast(d.moved))
  }

  /** Undo the rename when the new log could not be created; every error becomes one the target check catches. */
  function RollBack(m: Machine, p: Moved): Machine {
    if m.flow == Live || m.flow == Died then m
    else if m.dir.pending != [] && m.dir.pending[|m.dir.pending| - 1] == p && m.dir.active.None? then
      var m1 := Effect(m.(flow := Live), RenamedBack(m.dir, p));
      if m1.flow == Died then m1 else m1.(flow := Raised)
    else m.(flow := Raised)
  }

  /** Set the log aside and start a new one, under the lock of the writers. */
  function SetAside(m: Machine, p: Moved): Machine {
    var m1 := Effect(m, Renamed(m.dir, p));
    var m2 := Effect(m1, m1.dir.(active := Some([])));
    if m.flow == Live then RollBack(m2, p) else m2
  }

  function Rotate(m: Machine, run: nat): Machine {
    if m.flow != Live || m.dir.active.None? then m
    else
      var p := Moved(run, m.dir.active.value);
      DropDerived(DropPending(Archive(SetAside(m, p), p), run), run)
  }

  function RecoverOne(m: Machine, p: Moved): Machine {
    DropPending(DropDerived(Archive(m, p), p.run), p.run)
  }

  /** Archive what is pending, oldest first. */
  function Recover(m: Machine, todo: seq<Moved>): Machine
    decreases |todo|
  {
    if todo == [] || m.flow != Live then m else Recover(RecoverOne(m, todo[0]), todo[1..])
  }

  // ---------------------------------------------------------------- the application logs

  /** The names of one log sort before those of the other, and by run within one. */
  function Place(cs: seq<Copied>, c: Copied): seq<Copied> {
    if cs == [] || (c.log == Stderr && cs[0].log == Stdout) then [c] + cs else [cs[0]] + Place(cs[1..], c)
  }

  function MarkReady(cs: seq<Copied>, c: Copied): seq<Copied> {
    if cs == [] then [] else [if cs[0] == c then c.(ready := true) else cs[0]] + MarkReady(cs[1..], c)
  }

  function WithoutCopy(cs: seq<Copied>, c: Copied): seq<Copied> {
    if cs == [] then [] else if cs[0] == c then WithoutCopy(cs[1..], c) else [cs[0]] + WithoutCopy(cs[1..], c)
  }

  /** Compress a pending copy into its archive, then unlink the copy and its metadata. */
  function FinishCopy(m: Machine, c: Copied): Machine {
    var m1 := Effect(m, m.dir);
    var m2 := Effect(m1, m1.dir.(copies := WithoutCopy(m1.dir.copies, c)));
    Effect(m2, m2.dir)
  }

  /** Copy the log, record the copy, and truncate the log. */
  function CopyAndTruncate(m: Machine, c: Copied): Machine {
    var m1 := Effect(m, m.dir.(copies := Place(m.dir.copies, c)));
    var m2 := Effect(m1, m1.dir);
    Effect(m2, m2.dir)
  }

  /** Copy and truncate, record that, and archive the copy. */
  function RotateApplication(m: Machine, c: Copied): Machine {
    var m1 := CopyAndTruncate(m, c);
    var m2 := Effect(m1, m1.dir.(copies := MarkReady(m1.dir.copies, c)));
    FinishCopy(m2, c.(ready := true))
  }

  /** A copy that is not ready stops the recovery with an error. */
  function RecoverCopies(m: Machine, todo: seq<Copied>): Machine
    decreases |todo|
  {
    if todo == [] || m.flow != Live then m
    else if !todo[0].ready then Raise(m)
    else RecoverCopies(FinishCopy(m, todo[0]), todo[1..])
  }

  predicate PendingFor(cs: seq<Copied>, log: Application) {
    exists c :: c in cs && c.log == log
  }

  // ---------------------------------------------------------------- retention

  /** Unlink the oldest archive. */
  function EvictOne(m: Machine): Machine {
    if m.dir.archives == [] then m
    else Effect(m, m.dir.(archives := m.dir.archives[1..], evicted := m.dir.evicted + [m.dir.archives[0]]))
  }

  function Evict(m: Machine, n: nat): Machine
    decreases n
  {
    if n == 0 || m.flow != Live then m else Evict(EvictOne(m), n - 1)
  }

  function Excess(count: nat, limit: nat): nat {
    if count > limit then count - limit else 0
  }

  /** All but the newest few go; then as many more of the oldest as the budget over all logs takes. */
  function Retain(m: Machine, limit: nat, cut: nat): Machine {
    Evict(Evict(m, Excess(|m.dir.archives|, limit)), cut)
  }

  // ---------------------------------------------------------------- one run

  /** Temporary files of earlier runs go first. */
  function CleanTemps(m: Machine): Machine {
    if m.dir.derived == {} && m.dir.zipping == {} then m else Effect(m, m.dir.(derived := {}, zipping := {}))
  }

  /** Which logs are due, how many archives are kept, and how many more the budget takes. */
  datatype Plan = Plan(stdout: bool, stderr: bool, heartbeat: bool, limit: nat, cut: nat)

  /** A caught error of one target does not end the run. */
  function Caught(m: Machine, m': Machine): Machine {
    if m.flow == Live && m'.flow == Raised then m'.(flow := Live) else m'
  }

  function CheckApplication(m: Machine, due: bool, log: Application, run: nat): Machine {
    if due then Caught(m, RotateApplication(m, Copied(log, run, false))) else m
  }

  function CheckHeartbeat(m: Machine, due: bool, run: nat): Machine {
    if due then Caught(m, Rotate(m, run)) else m
  }

  /** The names of the application copies sort before those of the heartbeat. */
  function RecoverPending(m: Machine): Machine {
    var m1 := RecoverCopies(m, m.dir.copies);
    Recover(m1, m1.dir.pending)
  }

  /** Each log that is due and had nothing to recover is rotated; start is the directory before recovery. */
  function CheckTargets(m: Machine, start: Dir, run: nat, plan: Plan): Machine {
    var m1 := CheckApplication(m, plan.stdout && !PendingFor(start.copies, Stdout), Stdout, run);
    var m2 := CheckApplication(m1, plan.stderr && !PendingFor(start.copies, Stderr), Stderr, run);
    CheckHeartbeat(m2, plan.heartbeat && start.pending == [], run)
  }

  /** One run: clean, recover, rotate what is due, and apply retention and budget. */
  function RunOnce(m: Machine, run: nat, plan: Plan): Machine {
    var m1 := CleanTemps(m);
    Retain(CheckTargets(RecoverPending(m1), m1.dir, run, plan), plan.limit, plan.cut)
  }
}
