/**
 What a history of heartbeat rotations keeps: no segment is lost or kept twice, only the
 oldest archives go, and a copy of an application log that is not ready stops everything.
 */
module RotationHistory {
  import opened Wrappers
  import opened RotationHeartbeat

  // ---------------------------------------------------------------- every segment is accounted for

  predicate Distinct(ps: seq<Moved>) {
    forall i, j :: 0 <= i < j < |ps| ==> ps[i].run != ps[j].run
  }

  /** The archives of some segments, in their order. */
  function Packed(ps: seq<Moved>): (r: seq<Moved>)
    ensures |r| == |ps| && forall i :: 0 <= i < |ps| ==> r[i] == Pack(ps[i])
  {
    if ps == [] then [] else Packed(ps[..|ps| - 1]) + [Pack(ps[|ps| - 1])]
  }

  function Stored(d: Dir): nat {
    |d.evicted| + |d.archives|
  }

  /**
   At most one segment is pending, the last. The evicted archives followed by those still
   there are the whole lines of the segments in order, with no gap, no repetition and
   nothing missing but possibly the pending one.
   */
  predicate Accounted(d: Dir) {
    && Distinct(d.moved)
    && (d.pending == [] || (d.moved != [] && d.pending == [d.moved[|d.moved| - 1]]))
    && Stored(d) <= |d.moved| <= Stored(d) + (if d.pending == [] then 0 else 1)
    && d.evicted + d.archives == Packed(d.moved[..Stored(d)])
  }

  predicate Fresh(d: Dir, run: nat) {
    forall p :: p in d.moved ==> p.run != run
  }

  /** No more effect fails, and no temporary file is in the way. */
  predicate Clear(m: Machine) {
    m.flow == Live && m.outcomes == [] && m.dir.derived == {} && m.dir.zipping == {}
  }

  lemma EffectChoices(m: Machine, dir: Dir)
    ensures var m' := Effect(m, dir);
            && (m'.dir == m.dir || (m.flow == Live && m'.dir == dir))
            && (m'.flow == Live ==> m.flow == Live && m'.dir == dir)
            && (m.flow != Live ==> m' == m)
            && (m.flow == Live && m.outcomes == [] ==> m' == m.(dir := dir))
  {
  }

  lemma {:induction false} WithoutNone(ps: seq<Moved>, run: nat)
    requires forall p :: p in ps ==> p.run != run
    ensures Without(ps, run) == ps
  {
    if ps != [] {
      assert ps == [ps[0]] + ps[1..];
      WithoutNone(ps[1..], run);
    }
  }

  lemma {:induction false} WithoutConcat(ps: seq<Moved>, qs: seq<Moved>, run: nat)
    ensures Without(ps + qs, run) == Without(ps, run) + Without(qs, run)
  {
    if ps == [] {
      assert ps + qs == qs;
    } else {
      assert (ps + qs)[1..] == ps[1..] + qs;
      WithoutConcat(ps[1..], qs, run);
    }
  }

  /** Removing the archive of the last segment from the archives so far leaves those of the others. */
  lemma WithoutLast(moved: seq<Moved>, n: nat)
    requires Distinct(moved) && moved != [] && |moved| - 1 <= n <= |moved|
    ensures Without(Packed(moved[..n]), moved[|moved| - 1].run) == Packed(moved[..|moved| - 1])
  {
    var k, last := |moved| - 1, moved[|moved| - 1];
    var others := Packed(moved[..k]);
    forall p | p in others ensures p.run != last.run {
      var i :| 0 <= i < |others| && others[i] == p;
      assert moved[..k][i] == moved[i];
    }
    WithoutNone(others, last.run);
    if n == |moved| {
      assert moved[..n][..k] == moved[..k];
      WithoutConcat(others, [Pack(last)], last.run);
      assert Packed(moved[..n]) == others + [Pack(last)];
    } else {
      assert moved[..n] == moved[..k];
    }
  }

  /** Putting the archive of the pending segment in place, for the first time or again, completes the archives. */
  lemma InPlaceAccounts(d: Dir, p: Moved)
    requires Accounted(d) && d.pending == [p]
    ensures Accounted(InPlace(d, p)) && Stored(InPlace(d, p)) == |d.moved|
    ensures |InPlace(d, p).evicted| == Lost(d)
  {
    var d' := InPlace(d, p);
    ReplacingTheLast(d.evicted, d.archives, d.moved, Stored(d));
    assert d'.evicted + d'.archives == Packed(d.moved);
    StoredWhole(d');
    LostIs(d, p);
  }

  lemma StoredWhole(d: Dir)
    requires Distinct(d.moved) && d.moved != [] && d.pending == [d.moved[|d.moved| - 1]] && d.evicted + d.archives == Packed(d.moved)
    ensures Accounted(d) && Stored(d) == |d.moved|
  {
    assert |d.evicted + d.archives| == |d.moved|;
    assert d.moved[..|d.moved|] == d.moved;
  }

  lemma ReplacingTheLast(evicted: seq<Moved>, archives: seq<Moved>, moved: seq<Moved>, n: nat)
    requires Distinct(moved) && moved != [] && |moved| - 1 <= n <= |moved| && evicted + archives == Packed(moved[..n])
    ensures var p := moved[|moved| - 1];
            Without(evicted, p.run) + (Without(archives, p.run) + [Pack(p)]) == Packed(moved)
  {
    var p := moved[|moved| - 1];
    WithoutLast(moved, n);
    WithoutConcat(evicted, archives, p.run);
    assert Without(evicted, p.run) + (Without(archives, p.run) + [Pack(p)]) == Without(evicted + archives, p.run) + [Pack(p)];
  }

  /** How many segments are gone for good: an evicted one that is still pending will be archived again. */
  function Lost(d: Dir): nat {
    if d.pending != [] && |d.evicted| == |d.moved| > 0 then |d.evicted| - 1 else |d.evicted|
  }

  lemma LostIs(d: Dir, p: Moved)
    requires Accounted(d) && d.pending == [p]
    ensures |Without(d.evicted, p.run)| == Lost(d)
  {
    var n := |d.evicted|;
    var stored := Packed(d.moved[..Stored(d)]);
    assert d.evicted == stored[..n];
    if n == |d.moved| {
      WithoutLast(d.moved, n);
      assert d.evicted == Packed(d.moved[..n]);
    } else {
      forall q | q in d.evicted ensures q.run != p.run {
        var i :| 0 <= i < n && d.evicted[i] == q;
        assert stored[i] == Pack(d.moved[i]);
      }
      WithoutNone(d.evicted, p.run);
    }
  }

  function Flatten(ps: seq<Moved>): seq<Byte> {
    if ps == [] then [] else Flatten(ps[..|ps| - 1]) + ps[|ps| - 1].bytes
  }

  function ActiveBytes(dir: Dir): seq<Byte> {
    if dir.active.Some? then dir.active.value else []
  }

  /** Everything ever written: the segments set aside, in order, and the active log. */
  function AllBytes(d: Dir): seq<Byte> {
    Flatten(d.moved) + ActiveBytes(d)
  }

  /** Temporary files and copies of the application logs do not touch what is accounted for. */
  lemma CopiesDoNotMatter(d: Dir, d': Dir)
    requires d' == d.(copies := d'.copies, derived := d'.derived, zipping := d'.zipping)
    ensures Accounted(d) ==> Accounted(d')
    ensures AllBytes(d') == AllBytes(d) && Lost(d') == Lost(d) && Stored(d') == Stored(d)
  {
  }

  /** The archive of the pending segment is in place. */
  predicate Covered(d: Dir) {
    Stored(d) == |d.moved| && |d.evicted| == Lost(d)
  }

  /** What the steps on behalf of one pending segment guarantee. */
  predicate StepsOver(m: Machine, m': Machine) {
    && Accounted(m'.dir) && m'.dir.moved == m.dir.moved && m'.dir.active == m.dir.active && m'.dir.copies == m.dir.copies
    && Lost(m'.dir) == Lost(m.dir)
    && (m'.flow == Live ==> m.flow == Live)
  }

  lemma ArchiveKeeps(m: Machine, p: Moved)
    requires Accounted(m.dir) && m.dir.pending == [p]
    ensures var m' := Archive(m, p);
            && StepsOver(m, m') && m'.dir.pending == m.dir.pending
            && (m'.flow == Live ==> Covered(m'.dir))
            && (Clear(m) ==> m'.flow == Live && m'.outcomes == [] && m'.dir.derived == {p.run} && m'.dir.zipping == {})
  {
    var d := m.dir.(derived := m.dir.derived + {p.run});
    EffectChoices(m, d);
    CopiesDoNotMatter(m.dir, d);
    CompressedKeeps(Effect(m, d), p);
  }

  lemma CompressedKeeps(m: Machine, p: Moved)
    requires Accounted(m.dir) && m.dir.pending == [p]
    ensures var m' := Compressed(m, p);
            && StepsOver(m, m') && m'.dir.pending == m.dir.pending && m'.dir.derived == m.dir.derived
            && (m'.flow == Live ==> Covered(m'.dir))
            && (m.flow == Live && m.outcomes == [] && m.dir.zipping == {} ==> m'.flow == Live && m'.outcomes == [] && m'.dir.zipping == {})
  {
    var d := m.dir.(zipping := m.dir.zipping + {p.run});
    var m1 := Effect(m, d);
    EffectChoices(m, d);
    CopiesDoNotMatter(m.dir, d);
    EffectChoices(m1, InPlace(m1.dir, p));
    InPlaceAccounts(m1.dir, p);
  }

  lemma DropPendingKeeps(m: Machine, p: Moved)
    requires Accounted(m.dir) && m.dir.pending == [p] && (m.flow == Live ==> Covered(m.dir))
    ensures var m' := DropPending(m, p.run);
            && StepsOver(m, m')
            && (m'.flow == Live ==> m'.dir == m.dir.(pending := []))
            && (m.flow == Live && m.outcomes == [] ==> m'.flow == Live && m'.outcomes == [])
  {
    assert Without([p], p.run) == [];
    EffectChoices(m, m.dir.(pending := []));
  }

  lemma DropDerivedKeeps(m: Machine, run: nat)
    requires Accounted(m.dir)
    ensures var m' := DropDerived(m, run);
            && StepsOver(m, m') && m'.dir == m.dir.(derived := m'.dir.derived)
            && (m.flow == Live && m.outcomes == [] ==> m'.flow == Live && m'.outcomes == [] && m'.dir.derived == m.dir.derived - {run})
  {
    EffectChoices(m, m.dir.(derived := m.dir.derived - {run}));
  }

  lemma RecoverOneKeeps(m: Machine, p: Moved)
    requires Accounted(m.dir) && m.dir.pending == [p]
    ensures var m' := RecoverOne(m, p);
            && StepsOver(m, m') && (m'.flow == Live ==> m'.dir.pending == []) && (Clear(m) ==> Clear(m'))
  {
    var m1 := Archive(m, p);
    var m2 := DropDerived(m1, p.run);
    ArchiveKeeps(m, p);
    DropDerivedKeeps(m1, p.run);
    DropPendingKeeps(m2, p);
  }

  /** Recovery, cut or failing anywhere, loses no segment; if it gets through, nothing is pending. */
  lemma RecoverKeeps(m: Machine)
    requires Accounted(m.dir)
    ensures var m' := Recover(m, m.dir.pending);
            && StepsOver(m, m') && (m'.flow == Live ==> m'.dir.pending == []) && (Clear(m) ==> Clear(m'))
  {
    if m.dir.pending != [] && m.flow == Live {
      var p := m.dir.pending[0];
      RecoverOneKeeps(m, p);
      assert m.dir.pending[1..] == [];
      assert Recover(m, m.dir.pending) == RecoverOne(m, p);
    }
  }

  lemma FlattenLast(ps: seq<Moved>, p: Moved)
    ensures Flatten(ps + [p]) == Flatten(ps) + p.bytes
  {
    assert (ps + [p])[..|ps|] == ps;
  }

  /** What setting a log aside guarantees, done, half done or undone. */
  predicate SetsAside(d: Dir, d': Dir, p: Moved) {
    && Accounted(d') && AllBytes(d') == AllBytes(d) && d'.copies == d.copies && d'.derived == d.derived && d'.zipping == d.zipping
    && Lost(d') == Lost(d)
    && (d'.moved == d.moved || d'.moved == d.moved + [p])
  }

  lemma RenamingAccounts(d: Dir, p: Moved, active: Option<seq<Byte>>)
    requires Accounted(d) && d.pending == [] && d.active == Some(p.bytes) && Fresh(d, p.run) && (active == None || active == Some([]))
    ensures SetsAside(d, Renamed(d, p).(active := active), p)
  {
    var d' := Renamed(d, p).(active := active);
    RenamedIsAccounted(d, p, active);
    FlattenLast(d.moved, p);
    assert AllBytes(d') == Flatten(d.moved) + p.bytes;
  }

  lemma RenamedIsAccounted(d: Dir, p: Moved, active: Option<seq<Byte>>)
    requires Accounted(d) && d.pending == [] && Fresh(d, p.run)
    ensures Accounted(Renamed(d, p).(active := active))
  {
    var d' := Renamed(d, p).(active := active);
    StillDistinct(d.moved, p);
    assert d'.moved[..Stored(d)] == d.moved[..Stored(d)];
    assert d'.pending == [p] && d'.moved[|d'.moved| - 1] == p;
    assert Stored(d') == Stored(d);
  }

  lemma StillDistinct(ps: seq<Moved>, p: Moved)
    requires Distinct(ps) && forall q :: q in ps ==> q.run != p.run
    ensures Distinct(ps + [p])
  {
    forall i, j | 0 <= i < j < |ps + [p]| ensures (ps + [p])[i].run != (ps + [p])[j].run {
      assert ps[i] in ps;
    }
  }

  /** Where a failed attempt to set the log aside can stand: not begun, or renamed with or without a new log. */
  predicate Attempted(d: Dir, d2: Dir, p: Moved) {
    d2 == d || d2 == Renamed(d, p) || d2 == Renamed(d, p).(active := Some([]))
  }

  lemma UndoRestores(d: Dir, p: Moved)
    requires d.active == Some(p.bytes)
    ensures RenamedBack(Renamed(d, p), p) == d
  {
    assert AllButLast(d.pending + [p]) == d.pending && AllButLast(d.moved + [p]) == d.moved;
  }

  /** Rolling back restores the log and forgets the segment; otherwise nothing changes. */
  lemma RollBackIs(d: Dir, m2: Machine, p: Moved)
    requires d.active == Some(p.bytes) && Attempted(d, m2.dir, p)
    ensures var m' := RollBack(m2, p);
            && (m'.dir == m2.dir || m'.dir == d)
            && (m2.flow == Live || m2.flow == Died ==> m' == m2) && (m2.flow == Raised || m2.flow == Broken ==> m'.flow != Live)
  {
    UndoRestores(d, p);
  }

  lemma SetAsideKeeps(m: Machine, p: Moved)
    requires Accounted(m.dir) && m.dir.pending == [] && m.flow == Live && m.dir.active == Some(p.bytes) && Fresh(m.dir, p.run)
    ensures var m' := SetAside(m, p);
            && SetsAside(m.dir, m'.dir, p)
            && (m'.flow == Live ==> m'.dir == Renamed(m.dir, p).(active := Some([])))
            && (m.outcomes == [] ==> m'.flow == Live && m'.outcomes == [])
  {
    var m1 := Effect(m, Renamed(m.dir, p));
    var m2 := Effect(m1, m1.dir.(active := Some([])));
    EffectChoices(m, Renamed(m.dir, p));
    EffectChoices(m1, m1.dir.(active := Some([])));
    RenamingAccounts(m.dir, p, None);
    RenamingAccounts(m.dir, p, Some([]));
    RollBackIs(m.dir, m2, p);
  }

  lemma FinishRotation(m: Machine, p: Moved)
    requires Accounted(m.dir) && m.dir.pending == [p]
    ensures var m' := DropDerived(DropPending(Archive(m, p), p.run), p.run);
            StepsOver(m, m') && (Clear(m) ==> Clear(m') && m'.dir.pending == [])
  {
    var m1 := Archive(m, p);
    var m2 := DropPending(m1, p.run);
    ArchiveKeeps(m, p);
    DropPendingKeeps(m1, p);
    DropDerivedKeeps(m2, p.run);
  }

  lemma EndedStays(m: Machine, p: Moved)
    requires m.flow != Live
    ensures DropDerived(DropPending(Archive(m, p), p.run), p.run) == m
  {
  }

  /** What a rotation or a whole run guarantees. */
  predicate Conserves(d: Dir, d': Dir, run: nat) {
    && Accounted(d') && AllBytes(d') == AllBytes(d)
    && (d'.moved == d.moved || (d.active.Some? && d'.moved == d.moved + [Moved(run, d.active.value)]))
  }

  lemma ThenSteps(d: Dir, m1: Machine, m2: Machine, p: Moved)
    requires SetsAside(d, m1.dir, p) && StepsOver(m1, m2) && d.active == Some(p.bytes)
    ensures Conserves(d, m2.dir, p.run) && m2.dir.copies == d.copies && Lost(m2.dir) == Lost(d)
  {
    assert AllBytes(m2.dir) == AllBytes(m1.dir);
  }

  lemma RotateKeeps(m: Machine, run: nat)
    requires Accounted(m.dir) && m.dir.pending == [] && Fresh(m.dir, run)
    ensures var m' := Rotate(m, run);
            && Conserves(m.dir, m'.dir, run) && m'.dir.copies == m.dir.copies && Lost(m'.dir) == Lost(m.dir)
            && (Clear(m) ==> Clear(m') && m'.dir.pending == [])
  {
    if m.flow == Live && m.dir.active.Some? {
      RotatingKeeps(m, Moved(run, m.dir.active.value));
    }
  }

  lemma RotatingKeeps(m: Machine, p: Moved)
    requires Accounted(m.dir) && m.dir.pending == [] && m.flow == Live && m.dir.active == Some(p.bytes) && Fresh(m.dir, p.run)
    ensures var m' := Rotate(m, p.run);
            && Conserves(m.dir, m'.dir, p.run) && m'.dir.copies == m.dir.copies && Lost(m'.dir) == Lost(m.dir)
            && (Clear(m) ==> Clear(m') && m'.dir.pending == [])
  {
    var m1 := SetAside(m, p);
    var m2 := DropDerived(DropPending(Archive(m1, p), p.run), p.run);
    assert Rotate(m, p.run) == m2;
    SetAsideKeeps(m, p);
    if m1.flow == Live {
      FinishRotation(m1, p);
      ThenSteps(m.dir, m1, m2, p);
    } else {
      EndedStays(m1, p);
    }
  }

  // ---------------------------------------------------------------- application logs stand aside

  /** Only the pending copies change. */
  predicate OnlyCopies(m: Machine, m': Machine) {
    m'.dir == m.dir.(copies := m'.dir.copies) && (m'.flow == Live ==> m.flow == Live)
  }

  predicate Blocked(d: Dir) {
    exists c :: c in d.copies && !c.ready
  }

  lemma {:induction false} WithoutCopyKeeps(cs: seq<Copied>, c: Copied)
    ensures forall x :: x in WithoutCopy(cs, c) <==> x in cs && x != c
  {
    if cs != [] {
      assert cs == [cs[0]] + cs[1..];
      WithoutCopyKeeps(cs[1..], c);
    }
  }

  lemma FinishCopyKeeps(m: Machine, c: Copied)
    ensures var m' := FinishCopy(m, c);
            && OnlyCopies(m, m')
            && (m'.dir.copies == m.dir.copies || m'.dir.copies == WithoutCopy(m.dir.copies, c))
            && (m'.flow == Live ==> m'.dir.copies == WithoutCopy(m.dir.copies, c))
            && (Clear(m) ==> Clear(m'))
  {
    var m1 := Effect(m, m.dir);
    var d := m1.dir.(copies := WithoutCopy(m1.dir.copies, c));
    EffectChoices(m, m.dir);
    EffectChoices(m1, d);
    EffectChoices(Effect(m1, d), Effect(m1, d).dir);
  }

  /** Recovery gets past the application copies only if all of them are ready, and never drops one that is not. */
  lemma {:induction false} RecoverCopiesKeeps(m: Machine, todo: seq<Copied>)
    ensures var m' := RecoverCopies(m, todo);
            && OnlyCopies(m, m')
            && (forall c :: c in m.dir.copies && !c.ready ==> c in m'.dir.copies)
            && (m'.flow == Live ==> forall c :: c in todo ==> c.ready && c !in m'.dir.copies)
            && (m'.flow == Live ==> forall c :: c in m'.dir.copies ==> c in m.dir.copies)
            && (Clear(m) && (forall c :: c in todo ==> c.ready) ==> Clear(m'))
    decreases |todo|
  {
    if todo != [] && m.flow == Live && todo[0].ready {
      var m1 := FinishCopy(m, todo[0]);
      FinishCopyKeeps(m, todo[0]);
      WithoutCopyKeeps(m.dir.copies, todo[0]);
      assert todo == [todo[0]] + todo[1..];
      RecoverCopiesKeeps(m1, todo[1..]);
    } else if todo != [] {
      assert todo[0] in todo;
    }
  }

  lemma {:induction false} PlacedAlone(c: Copied)
    ensures WithoutCopy(MarkReady(Place([], c), c), c.(ready := true)) == []
  {
    assert Place([], c) == [c];
    assert MarkReady([c], c) == [c.(ready := true)];
  }

  lemma CopyingKeeps(m: Machine, c: Copied)
    ensures var m3 := CopyAndTruncate(m, c);
            && OnlyCopies(m, m3) && (m.flow == Live && m.outcomes == [] ==> m3 == m.(dir := m.dir.(copies := Place(m.dir.copies, c))))
  {
    var m1 := Effect(m, m.dir.(copies := Place(m.dir.copies, c)));
    EffectChoices(m, m.dir.(copies := Place(m.dir.copies, c)));
    EffectChoices(m1, m1.dir);
    EffectChoices(Effect(m1, m1.dir), Effect(m1, m1.dir).dir);
  }

  lemma RotateApplicationKeeps(m: Machine, c: Copied)
    ensures var m' := RotateApplication(m, c);
            && OnlyCopies(m, m') && (Clear(m) && m.dir.copies == [] ==> Clear(m') && m'.dir.copies == [])
  {
    var m3 := CopyAndTruncate(m, c);
    var d := m3.dir.(copies := MarkReady(m3.dir.copies, c));
    CopyingKeeps(m, c);
    EffectChoices(m3, d);
    FinishCopyKeeps(Effect(m3, d), c.(ready := true));
    PlacedAlone(c);
  }

  lemma CheckApplicationKeeps(m: Machine, due: bool, log: Application, run: nat)
    ensures var m' := CheckApplication(m, due, log, run);
            && OnlyCopies(m, m') && (Clear(m) && m.dir.copies == [] ==> Clear(m') && m'.dir.copies == [])
            && (m.flow != Live ==> m' == m)
  {
    RotateApplicationKeeps(m, Copied(log, run, false));
  }

  lemma CheckHeartbeatKeeps(m: Machine, due: bool, run: nat)
    requires Accounted(m.dir) && Fresh(m.dir, run) && (due && m.flow == Live ==> m.dir.pending == [])
    ensures var m' := CheckHeartbeat(m, due, run);
            && Conserves(m.dir, m'.dir, run) && m'.dir.copies == m.dir.copies && Lost(m'.dir) == Lost(m.dir)
            && (Clear(m) && m.dir.pending == [] ==> Clear(m') && m'.dir.pending == [])
            && (m.flow != Live ==> m' == m)
  {
    if due && m.flow == Live { RotateKeeps(m, run); }
  }

  lemma CheckTargetsKeeps(m: Machine, start: Dir, run: nat, plan: Plan)
    requires Accounted(m.dir) && Fresh(m.dir, run) && (m.flow == Live ==> m.dir.pending == [])
    ensures var m' := CheckTargets(m, start, run, plan);
            && Conserves(m.dir, m'.dir, run) && Lost(m'.dir) == Lost(m.dir)
            && (Clear(m) && m.dir.copies == [] && m.dir.pending == [] ==> Clear(m') && m'.dir.copies == [] && m'.dir.pending == [])
            && (m.flow != Live ==> m' == m)
  {
    var due1, due2 := plan.stdout && !PendingFor(start.copies, Stdout), plan.stderr && !PendingFor(start.copies, Stderr);
    var m1 := CheckApplication(m, due1, Stdout, run);
    var m2 := CheckApplication(m1, due2, Stderr, run);
    CheckApplicationKeeps(m, due1, Stdout, run);
    CheckApplicationKeeps(m1, due2, Stderr, run);
    CopiesDoNotMatter(m.dir, m2.dir);
    CheckHeartbeatKeeps(m2, plan.heartbeat && start.pending == [], run);
  }

  // ---------------------------------------------------------------- retention takes the oldest

  /** Some archives have moved, oldest first, to the evicted ones. */
  predicate Evicts(d: Dir, d': Dir, n: nat) {
    && n <= |d.archives|
    && d' == d.(archives := d.archives[n..], evicted := d.evicted + d.archives[..n])
  }

  lemma EvictsComposes(d: Dir, d1: Dir, d2: Dir, i: nat, j: nat)
    requires Evicts(d, d1, i) && Evicts(d1, d2, j)
    ensures Evicts(d, d2, i + j)
  {
    assert d.archives[i..][j..] == d.archives[i + j..];
    assert d.archives[..i] + d.archives[i..][..j] == d.archives[..i + j];
    assert d2.evicted == d.evicted + (d.archives[..i] + d.archives[i..][..j]);
  }

  lemma NoneEvicted(d: Dir)
    ensures Evicts(d, d, 0)
  {
    assert d.archives[0..] == d.archives && d.evicted + d.archives[..0] == d.evicted;
  }

  /** How many went, when the pass may be cut, and all that were asked for when it works. */
  lemma {:induction false} EvictKeeps(m: Machine, n: nat) returns (k: nat)
    ensures k <= n && Evicts(m.dir, Evict(m, n).dir, k)
    ensures Clear(m) ==> Clear(Evict(m, n)) && k == if n < |m.dir.archives| then n else |m.dir.archives|
    decreases n
  {
    NoneEvicted(m.dir);
    k := 0;
    if n > 0 && m.flow == Live {
      var m1 := EvictOne(m);
      var i := EvictOneKeeps(m);
      var j := EvictKeeps(m1, n - 1);
      EvictsComposes(m.dir, m1.dir, Evict(m1, n - 1).dir, i, j);
      k := i + j;
    }
  }

  lemma EvictOneKeeps(m: Machine) returns (k: nat)
    ensures k <= 1 && Evicts(m.dir, EvictOne(m).dir, k)
    ensures Clear(m) ==> Clear(EvictOne(m)) && k == if m.dir.archives == [] then 0 else 1
  {
    NoneEvicted(m.dir);
    k := 0;
    if m.dir.archives != [] {
      var d := m.dir.(archives := m.dir.archives[1..], evicted := m.dir.evicted + [m.dir.archives[0]]);
      EffectChoices(m, d);
      assert m.dir.archives[..1] == [m.dir.archives[0]];
      assert Evicts(m.dir, d, 1);
      k := if EvictOne(m).dir == d then 1 else 0;
    }
  }

  /** Archives left of n under a limit and a cut. */
  function Remaining(n: nat, limit: nat, cut: nat): nat {
    Excess(if n < limit then n else limit, cut)
  }

  lemma RetainKeeps(m: Machine, limit: nat, cut: nat)
    requires Accounted(m.dir)
    ensures var m' := Retain(m, limit, cut);
            && Accounted(m'.dir) && m'.dir == m.dir.(archives := m'.dir.archives, evicted := m'.dir.evicted)
            && m'.dir.evicted + m'.dir.archives == m.dir.evicted + m.dir.archives
            && (Clear(m) ==> Clear(m') && |m'.dir.archives| == Remaining(|m.dir.archives|, limit, cut))
            && (m.flow != Live ==> m' == m)
  {
    var n := Excess(|m.dir.archives|, limit);
    var m1 := Evict(m, n);
    var i := EvictKeeps(m, n);
    var j := EvictKeeps(m1, cut);
    var m' := Evict(m1, cut);
    EvictsComposes(m.dir, m1.dir, m'.dir, i, j);
    EvictedAreAccounted(m.dir, m'.dir, i + j);
  }

  lemma EvictedAreAccounted(d: Dir, d': Dir, k: nat)
    requires Accounted(d) && Evicts(d, d', k)
    ensures Accounted(d') && d'.evicted + d'.archives == d.evicted + d.archives
  {
    assert d'.evicted + d'.archives == d.evicted + (d.archives[..k] + d.archives[k..]);
    assert d.archives[..k] + d.archives[k..] == d.archives;
  }

  // ---------------------------------------------------------------- one run keeps all of it

  lemma CleanTempsKeeps(m: Machine)
    ensures var m' := CleanTemps(m);
            && m'.dir == m.dir.(derived := m'.dir.derived, zipping := m'.dir.zipping) && (m'.flow == Live ==> m.flow == Live)
            && (m.flow == Live && m.outcomes == [] ==> Clear(m'))
  {
    EffectChoices(m, m.dir.(derived := {}, zipping := {}));
  }

  lemma RecoverPendingKeeps(m: Machine)
    requires Accounted(m.dir)
    ensures var m' := RecoverPending(m);
            && Accounted(m'.dir) && m'.dir.moved == m.dir.moved && m'.dir.active == m.dir.active && Lost(m'.dir) == Lost(m.dir)
            && (m'.flow == Live ==> m'.dir.pending == [] && m'.dir.copies == [] && !Blocked(m.dir))
            && (Clear(m) && !Blocked(m.dir) ==> Clear(m'))
  {
    var m1 := RecoverCopies(m, m.dir.copies);
    RecoverCopiesKeeps(m, m.dir.copies);
    CopiesDoNotMatter(m.dir, m1.dir);
    RecoverKeeps(m1);
    assert m1.dir.copies != [] ==> m1.dir.copies[0] in m1.dir.copies;
  }

  /** A copy that is not ready stops every run before anything is archived, rotated or evicted. */
  lemma RunBlocked(m: Machine, run: nat, plan: Plan)
    requires Blocked(m.dir)
    ensures var d := RunOnce(m, run, plan).dir;
            Blocked(d) && d == m.dir.(copies := d.copies, derived := d.derived, zipping := d.zipping)
    ensures RunOnce(m, run, plan).flow != Live
  {
    var m1 := CleanTemps(m);
    var m2 := RecoverCopies(m1, m1.dir.copies);
    CleanTempsKeeps(m);
    RecoverCopiesKeeps(m1, m1.dir.copies);
    var c :| c in m1.dir.copies && !c.ready;
    assert m2.flow != Live && c in m2.dir.copies;
    assert RecoverPending(m1) == m2;
    StoppedStays(m2, m1.dir, run, plan);
  }

  lemma StoppedStays(m: Machine, start: Dir, run: nat, plan: Plan)
    requires m.flow != Live
    ensures Retain(CheckTargets(m, start, run, plan), plan.limit, plan.cut) == m
  {
    RotateApplicationKeepsStopped(m, Copied(Stdout, run, false));
    RotateApplicationKeepsStopped(m, Copied(Stderr, run, false));
  }

  lemma RotateApplicationKeepsStopped(m: Machine, c: Copied)
    requires m.flow != Live
    ensures RotateApplication(m, c) == m
  {
  }

  lemma RunKeeps(m: Machine, run: nat, plan: Plan)
    requires Accounted(m.dir) && Fresh(m.dir, run)
    ensures Conserves(m.dir, RunOnce(m, run, plan).dir, run)
  {
    var m1 := CleanTemps(m);
    var m2 := RecoverPending(m1);
    CleanTempsKeeps(m);
    CopiesDoNotMatter(m.dir, m1.dir);
    RecoverPendingKeeps(m1);
    CheckTargetsKeeps(m2, m1.dir, run, plan);
    RetainKeeps(CheckTargets(m2, m1.dir, run, plan), plan.limit, plan.cut);
  }

  /** A working run from a directory that is not blocked leaves nothing pending, and as many archives as limit and cut allow. */
  lemma WorkingRun(d: Dir, run: nat, plan: Plan)
    requires Accounted(d) && Fresh(d, run) && !Blocked(d)
    ensures var d' := RunOnce(Machine(d, [], Live), run, plan).dir;
            && d'.pending == [] && d'.copies == [] && Stored(d') == |d'.moved|
            && |d'.archives| == Remaining(Excess(|d'.moved|, Lost(d)), plan.limit, plan.cut)
  {
    var m := Machine(d, [], Live);
    var m1 := CleanTemps(m);
    var m2 := RecoverPending(m1);
    var m3 := CheckTargets(m2, m1.dir, run, plan);
    CleanTempsKeeps(m);
    CopiesDoNotMatter(m.dir, m1.dir);
    RecoverPendingKeeps(m1);
    CheckTargetsKeeps(m2, m1.dir, run, plan);
    RetainKeeps(m3, plan.limit, plan.cut);
    assert Clear(m3) && m3.dir.pending == [] && Lost(m3.dir) == |m3.dir.evicted| == Lost(d);
  }

  // ---------------------------------------------------------------- every history

  datatype Event = Write(bytes: seq<Byte>) | Run(plan: Plan, outcomes: seq<Outcome>)

  /** The directory between events; next is the identity the next run will draw. */
  datatype Log = Log(dir: Dir, next: nat, written: seq<Byte>)

  const EMPTY := Log(Dir(None, [], [], {}, {}, [], [], []), 0, [])

  function After(s: Log, e: Event): Log {
    match e
    case Write(bytes) => s.(dir := s.dir.(active := Some(ActiveBytes(s.dir) + bytes)), written := s.written + bytes)
    case Run(plan, outcomes) => Log(RunOnce(Machine(s.dir, outcomes, Live), s.next, plan).dir, s.next + 1, s.written)
  }

  function AfterAll(s: Log, events: seq<Event>): Log
    decreases |events|
  {
    if events == [] then s else AfterAll(After(s, events[0]), events[1..])
  }

  predicate LogInv(s: Log) {
    && Accounted(s.dir) && s.written == AllBytes(s.dir)
    && forall p :: p in s.dir.moved ==> p.run < s.next
  }

  /** Every segment, and the log in progress, ends with a whole line. */
  predicate LinesWhole(s: Log) {
    LineEnded(ActiveBytes(s.dir)) && forall p :: p in s.dir.moved ==> LineEnded(p.bytes)
  }

  /** A run leaves the active log as it was, or sets it aside. */
  lemma ActiveAfterRun(d: Dir, d': Dir, run: nat)
    requires Conserves(d, d', run)
    ensures ActiveBytes(d') == if d'.moved == d.moved then ActiveBytes(d) else []
  {
    if d'.moved == d.moved {
      assert AllBytes(d')[|Flatten(d.moved)|..] == AllBytes(d)[|Flatten(d.moved)|..];
    } else {
      FlattenLast(d.moved, Moved(run, d.active.value));
      assert |AllBytes(d')| == |AllBytes(d)|;
    }
  }

  lemma WriteKeeps(s: Log, bytes: seq<Byte>)
    requires LogInv(s)
    ensures LogInv(After(s, Write(bytes)))
  {
    assert AllBytes(After(s, Write(bytes)).dir) == AllBytes(s.dir) + bytes;
  }

  lemma RunKeepsLog(s: Log, plan: Plan, outcomes: seq<Outcome>)
    requires LogInv(s)
    ensures LogInv(After(s, Run(plan, outcomes))) && Conserves(s.dir, After(s, Run(plan, outcomes)).dir, s.next)
  {
    RunKeeps(Machine(s.dir, outcomes, Live), s.next, plan);
  }

  lemma AfterKeeps(s: Log, e: Event)
    requires LogInv(s)
    ensures LogInv(After(s, e))
    ensures LinesWhole(s) && (e.Write? ==> LineEnded(e.bytes)) ==> LinesWhole(After(s, e))
  {
    match e
    case Write(bytes) =>
      WriteKeeps(s, bytes);
    case Run(plan, outcomes) =>
      RunKeepsLog(s, plan, outcomes);
      ActiveAfterRun(s.dir, After(s, e).dir, s.next);
  }

  lemma {:induction false} HistoryKeeps(s: Log, events: seq<Event>)
    requires LogInv(s)
    ensures LogInv(AfterAll(s, events))
    ensures LinesWhole(s) && (forall e :: e in events && e.Write? ==> LineEnded(e.bytes)) ==> LinesWhole(AfterAll(s, events))
    decreases |events|
  {
    if events != [] {
      AfterKeeps(s, events[0]);
      assert events[0] in events;
      assert forall e :: e in events[1..] ==> e in events;
      HistoryKeeps(After(s, events[0]), events[1..]);
    }
  }

  lemma EmptyIsSound()
    ensures LogInv(EMPTY) && LinesWhole(EMPTY)
  {
    assert EMPTY.dir.moved[..0] == [];
  }

  /**
   After any history of writes and runs, each cut or failing anywhere, one working run
   leaves nothing pending, unless the copy of an application log blocks it. The archives
   evicted and those kept are then the whole lines of all segments ever set aside, each
   once and in order, so what is kept is the newest and what is missing was archived; how
   many are kept follows from what was lost before, the limit and the cut.
   */
  lemma WorkingRunSettles(events: seq<Event>, plan: Plan)
    ensures var s := AfterAll(EMPTY, events);
            var d := After(s, Run(plan, [])).dir;
            !Blocked(s.dir) ==>
              && d.pending == [] && d.copies == []
              && d.evicted + d.archives == Packed(d.moved)
              && |d.archives| == Remaining(Excess(|d.moved|, Lost(s.dir)), plan.limit, plan.cut) <= plan.limit
    ensures var s := AfterAll(EMPTY, events);
            var d := After(s, Run(plan, [])).dir;
            Blocked(s.dir) ==> Blocked(d) && d == s.dir.(copies := d.copies, derived := d.derived, zipping := d.zipping)
    ensures var s := AfterAll(EMPTY, events);
            After(s, Run(plan, [])).dir.pending == [] <==> s.dir.pending == [] || !Blocked(s.dir)
  {
    var s := AfterAll(EMPTY, events);
    var d := After(s, Run(plan, [])).dir;
    EmptyIsSound();
    HistoryKeeps(EMPTY, events);
    AfterKeeps(s, Run(plan, []));
    if Blocked(s.dir) {
      RunBlocked(Machine(s.dir, [], Live), s.next, plan);
    } else {
      WorkingRun(s.dir, s.next, plan);
      assert d.moved[..|d.moved|] == d.moved;
    }
  }

  lemma {:induction false} FlattenConcat(ps: seq<Moved>, qs: seq<Moved>)
    ensures Flatten(ps + qs) == Flatten(ps) + Flatten(qs)
  {
    if qs == [] {
      assert ps + qs == ps;
    } else {
      var rest, last := qs[..|qs| - 1], qs[|qs| - 1];
      assert qs == rest + [last] && ps + qs == (ps + rest) + [last];
      FlattenLast(ps + rest, last);
      FlattenLast(rest, last);
      FlattenConcat(ps, rest);
      assert Flatten(ps + qs) == Flatten(ps + rest) + last.bytes;
      assert Flatten(ps) + (Flatten(rest) + last.bytes) == (Flatten(ps) + Flatten(rest)) + last.bytes;
    }
  }

  lemma PackedIsSame(ps: seq<Moved>)
    requires forall p :: p in ps ==> LineEnded(p.bytes)
    ensures Packed(ps) == ps
  {
    forall i | 0 <= i < |ps| ensures Packed(ps)[i] == ps[i] {
      WholeLinesIsLongest(ps[i].bytes);
      assert ps[i] in ps;
    }
  }

  /**
   When writers only append whole lines, then after a working run that is not blocked the
   evicted archives, those kept, and the active log are everything ever written.
   */
  lemma WholeLinesAreConserved(events: seq<Event>, plan: Plan)
    requires forall e :: e in events && e.Write? ==> LineEnded(e.bytes)
    requires !Blocked(AfterAll(EMPTY, events).dir)
    ensures var s := After(AfterAll(EMPTY, events), Run(plan, []));
            s.written == Flatten(s.dir.evicted) + Flatten(s.dir.archives) + ActiveBytes(s.dir)
  {
    var t := AfterAll(EMPTY, events);
    var s := After(t, Run(plan, []));
    EmptyIsSound();
    HistoryKeeps(EMPTY, events);
    AfterKeeps(t, Run(plan, []));
    WorkingRunSettles(events, plan);
    PackedIsSame(s.dir.moved);
    FlattenConcat(s.dir.evicted, s.dir.archives);
  }

  // ---------------------------------------------------------------- the blocking copy

  /** While a copy blocks, nothing is archived, rotated or evicted, for ever. */
  lemma {:induction false} BlockedForever(s: Log, events: seq<Event>)
    requires Blocked(s.dir)
    ensures var d := AfterAll(s, events).dir;
            && Blocked(d) && d.pending == s.dir.pending && d.archives == s.dir.archives
            && d.moved == s.dir.moved && d.evicted == s.dir.evicted
    decreases |events|
  {
    if events != [] {
      match events[0] {
        case Write(_) =>
        case Run(plan, outcomes) => RunBlocked(Machine(s.dir, outcomes, Live), s.next, plan);
      }
      BlockedForever(After(s, events[0]), events[1..]);
    }
  }

  /** The log cannot be truncated, and later in the same run the segment cannot be copied. */
  const STUCK: seq<Outcome> := [Happens, Happens, Fails(false, true), Happens, Happens, Fails(false, true)]

  lemma StuckCopy(m: Machine)
    requires m.flow == Live && m.outcomes == STUCK && m.dir.copies == []
    ensures var c := Copied(Stdout, 0, false);
            RotateApplication(m, c) == Machine(m.dir.(copies := [c]), STUCK[3..], Raised)
  {
    var c := Copied(Stdout, 0, false);
    var d := m.dir.(copies := [c]);
    assert Place([], c) == [c];
    assert Effect(m, d) == Machine(d, STUCK[1..], Live);
    assert Effect(Machine(d, STUCK[1..], Live), d) == Machine(d, STUCK[2..], Live);
    assert Effect(Machine(d, STUCK[2..], Live), d) == Machine(d, STUCK[3..], Raised);
  }

  lemma StuckTargets(m: Machine, p: Moved, plan: Plan)
    requires m == Machine(EMPTY.dir.(active := Some(p.bytes)), STUCK, Live) && p.run == 0
    requires plan.stdout && !plan.stderr && plan.heartbeat
    ensures CheckTargets(m, m.dir, 0, plan) == Machine(Renamed(m.dir.(copies := [Copied(Stdout, 0, false)]), p).(active := Some([])), [], Live)
  {
    var m1 := Machine(m.dir.(copies := [Copied(Stdout, 0, false)]), STUCK[3..], Live);
    StuckCopy(m);
    assert CheckApplication(m, true, Stdout, 0) == m1;
    StuckRotation(m1, p);
  }

  lemma StuckRun(d: Dir, bytes: seq<Byte>, plan: Plan)
    requires d == EMPTY.dir.(active := Some(bytes))
    requires plan.stdout && !plan.stderr && plan.heartbeat
    ensures var d' := RunOnce(Machine(d, STUCK, Live), 0, plan).dir;
            d'.copies == [Copied(Stdout, 0, false)] && d'.pending == [Moved(0, bytes)] && d'.archives == [] && d'.evicted == []
  {
    var m := Machine(d, STUCK, Live);
    StuckTargets(m, Moved(0, bytes), plan);
    var m1 := Machine(Renamed(d.(copies := [Copied(Stdout, 0, false)]), Moved(0, bytes)).(active := Some([])), [], Live);
    NothingToClean(m);
    NothingToEvict(m1, Excess(0, plan.limit));
    NothingToEvict(m1, plan.cut);
    assert RunOnce(m, 0, plan) == Retain(m1, plan.limit, plan.cut) == m1;
  }

  lemma NothingToClean(m: Machine)
    requires m.dir.derived == {} && m.dir.zipping == {} && m.dir.copies == [] && m.dir.pending == []
    ensures CleanTemps(m) == m && RecoverPending(m) == m
  {
  }

  lemma {:induction false} NothingToEvict(m: Machine, n: nat)
    requires m.dir.archives == []
    ensures Evict(m, n) == m
  {
    if n > 0 { NothingToEvict(m, n - 1); }
  }

  lemma StuckRotation(m: Machine, p: Moved)
    requires m.flow == Live && m.outcomes == STUCK[3..] && m.dir.pending == [] && m.dir.derived == {} && m.dir.zipping == {}
    requires m.dir.active == Some(p.bytes)
    ensures Rotate(m, p.run) == Machine(Renamed(m.dir, p).(active := Some([])), [], Raised)
  {
    var m1 := Effect(m, Renamed(m.dir, p));
    assert m1 == Machine(Renamed(m.dir, p), STUCK[4..], Live);
    var m2 := Effect(m1, m1.dir.(active := Some([])));
    assert m2 == Machine(Renamed(m.dir, p).(active := Some([])), STUCK[5..], Live);
    assert SetAside(m, p) == m2;
    var m3 := Effect(m2, m2.dir.(derived := m2.dir.derived + {p.run}));
    assert m3 == Machine(m2.dir, [], Raised);
    assert Archive(m2, p) == m3;
  }

  /**
   Such a run, with any first log, leaves a pending segment that no later history archives.
   */
  lemma SegmentIsNeverArchived(bytes: seq<Byte>, plan: Plan, later: seq<Event>)
    requires plan.stdout && !plan.stderr && plan.heartbeat
    ensures var s := After(After(EMPTY, Write(bytes)), Run(plan, STUCK));
            var d := AfterAll(s, later).dir;
            Blocked(d) && d.pending == [Moved(0, bytes)] && d.archives == [] && d.evicted == []
  {
    var s := After(EMPTY, Write(bytes));
    assert [] + bytes == bytes;
    StuckRun(s.dir, bytes, plan);
    var t := After(s, Run(plan, STUCK));
    assert t.dir.copies[0] == Copied(Stdout, 0, false);
    BlockedForever(t, later);
  }
}
