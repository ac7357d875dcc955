/**
 Retention and budget of the rotated archives (_apply_retention_and_budget in
 backend/app/deploy/rotation_engine.py): per target the newest few are kept, then the
 oldest of what remains go until the rest fits the budget. The list is ordered oldest
 first, as the program sorts it by modification time.
 */
module RotationBudget {
  import opened Wrappers

  datatype Archive = Archive(target: string, name: string, modified: int, bytes: nat)

  datatype Status = WithinBudget | Cleaned | ExceededUnrecoverable

  predicate OldestFirst(archives: seq<Archive>) {
    forall i, j :: 0 <= i < j < |archives| ==> archives[i].modified <= archives[j].modified
  }

  function Total(archives: seq<Archive>): nat {
    if archives == [] then 0 else archives[0].bytes + Total(archives[1..])
  }

  function Count(archives: seq<Archive>, target: string): nat {
    if archives == [] then 0 else (if archives[0].target == target then 1 else 0) + Count(archives[1..], target)
  }

  /** An archive stays when fewer than keep of its target come after it; targets without a limit stay. */
  function Kept(archives: seq<Archive>, keep: map<string, nat>): seq<Archive> {
    if archives == [] then []
    else if archives[0].target in keep && Count(archives[1..], archives[0].target) >= keep[archives[0].target]
    then Kept(archives[1..], keep)
    else [archives[0]] + Kept(archives[1..], keep)
  }

  /** The rest after the shortest prefix whose removal makes it fit. */
  function Fitting(archives: seq<Archive>, budget: int): seq<Archive> {
    if archives == [] || Total(archives) <= budget then archives else Fitting(archives[1..], budget)
  }

  // ---------------------------------------------------------------- what stays

  lemma {:induction false} FittingFits(archives: seq<Archive>, budget: int)
    ensures Fitting(archives, budget) == [] || Total(Fitting(archives, budget)) <= budget
    ensures budget >= 0 ==> Total(Fitting(archives, budget)) <= budget
  {
    if archives != [] && Total(archives) > budget { FittingFits(archives[1..], budget); }
  }

  /** How many of the oldest go. */
  function Evictions(archives: seq<Archive>, budget: int): nat {
    if archives == [] || Total(archives) <= budget then 0 else 1 + Evictions(archives[1..], budget)
  }

  lemma {:induction false} FittingIsSuffix(archives: seq<Archive>, budget: int)
    ensures Evictions(archives, budget) <= |archives| && Fitting(archives, budget) == archives[Evictions(archives, budget)..]
  {
    if archives != [] && Total(archives) > budget {
      FittingIsSuffix(archives[1..], budget);
      var n := Evictions(archives[1..], budget);
      assert archives[1..][n..] == archives[n + 1..];
    }
  }

  /** Only the oldest go, and no more than needed: removing any fewer leaves too much. */
  lemma {:induction false} EvictionIsShortest(archives: seq<Archive>, budget: int, k: nat)
    requires k < Evictions(archives, budget)
    ensures k < |archives| && Total(archives[k..]) > budget
  {
    if k > 0 {
      EvictionIsShortest(archives[1..], budget, k - 1);
      assert archives[1..][k - 1..] == archives[k..];
    } else {
      assert archives[0..] == archives;
    }
  }

  lemma {:induction false} KeptMember(archives: seq<Archive>, keep: map<string, nat>, i: nat)
    requires i < |archives| && Unique(archives)
    ensures archives[i] in Kept(archives, keep)
            <==> archives[i].target !in keep || Count(archives[i + 1..], archives[i].target) < keep[archives[i].target]
  {
    KeptSubset(archives[1..], keep);
    if i == 0 {
      assert archives[0] !in archives[1..];
    } else {
      assert archives[1..][i - 1] == archives[i] && archives[1..][i..] == archives[i + 1..];
      KeptMember(archives[1..], keep, i - 1);
      assert archives[0] != archives[i];
    }
  }

  predicate Unique(archives: seq<Archive>) {
    forall i, j :: 0 <= i < j < |archives| ==> archives[i] != archives[j]
  }

  lemma {:induction false} KeptSubset(archives: seq<Archive>, keep: map<string, nat>)
    ensures forall a :: a in Kept(archives, keep) ==> a in archives
    ensures |Kept(archives, keep)| <= |archives|
  {
    if archives != [] {
      assert archives == [archives[0]] + archives[1..];
      KeptSubset(archives[1..], keep);
    }
  }

  lemma {:induction false} CountShrinks(archives: seq<Archive>, target: string, i: nat, j: nat)
    requires i <= j <= |archives|
    ensures Count(archives[j..], target) <= Count(archives[i..], target)
    decreases j - i
  {
    if i < j {
      assert archives[i..][1..] == archives[i + 1..];
      CountShrinks(archives, target, i + 1, j);
    }
  }

  /** What is left in the end. */
  function Left(archives: seq<Archive>, keep: map<string, nat>, budget: int): seq<Archive> {
    Fitting(Kept(archives, keep), budget)
  }

  lemma {:induction false} KeptIndexed(archives: seq<Archive>, keep: map<string, nat>, i: nat, j: nat)
    requires i < j < |Kept(archives, keep)|
    ensures exists p, q :: 0 <= p < q < |archives| && archives[p] == Kept(archives, keep)[i] && archives[q] == Kept(archives, keep)[j]
  {
    var kept := Kept(archives, keep);
    var rest := Kept(archives[1..], keep);
    if kept == rest {
      KeptIndexed(archives[1..], keep, i, j);
      var p, q :| 0 <= p < q < |archives[1..]| && archives[1..][p] == rest[i] && archives[1..][q] == rest[j];
      assert archives[p + 1] == kept[i] && archives[q + 1] == kept[j];
    } else if i > 0 {
      KeptIndexed(archives[1..], keep, i - 1, j - 1);
      var p, q :| 0 <= p < q < |archives[1..]| && archives[1..][p] == rest[i - 1] && archives[1..][q] == rest[j - 1];
      assert archives[p + 1] == kept[i] && archives[q + 1] == kept[j];
    } else {
      KeptSubset(archives[1..], keep);
      assert kept[j] == rest[j - 1] && rest[j - 1] in rest;
      var q :| 0 <= q < |archives[1..]| && archives[1..][q] == rest[j - 1];
      assert archives[0] == kept[0] && archives[q + 1] == kept[j];
    }
  }

  lemma KeptInOrder(archives: seq<Archive>, keep: map<string, nat>, x: nat, y: nat, i: nat, j: nat)
    requires Unique(archives) && x < |Kept(archives, keep)| && y < |Kept(archives, keep)| && i < j < |archives|
    requires Kept(archives, keep)[x] == archives[i] && Kept(archives, keep)[y] == archives[j]
    ensures x < y
  {
    if y < x {
      KeptIndexed(archives, keep, y, x);
    }
  }

  lemma InSuffix(s: seq<Archive>, n: nat, a: Archive) returns (x: nat)
    requires n <= |s| && a in s[n..]
    ensures n <= x < |s| && s[x] == a
  {
    var k :| 0 <= k < |s[n..]| && s[n..][k] == a;
    x := n + k;
  }

  lemma SuffixHas(s: seq<Archive>, n: nat, y: nat)
    requires n <= y < |s|
    ensures s[y] in s[n..]
  {
  }

  /** With two kept archives, the later one stays if the earlier does. */
  lemma LaterStays(archives: seq<Archive>, keep: map<string, nat>, budget: int, i: nat, j: nat)
    requires Unique(archives) && i < j < |archives|
    requires archives[i] in Left(archives, keep, budget) && archives[j] in Kept(archives, keep)
    ensures archives[j] in Left(archives, keep, budget)
  {
    var kept := Kept(archives, keep);
    var n := Evictions(kept, budget);
    FittingIsSuffix(kept, budget);
    var x := InSuffix(kept, n, archives[i]);
    var y :| 0 <= y < |kept| && kept[y] == archives[j];
    KeptInOrder(archives, keep, x, y, i, j);
    SuffixHas(kept, n, y);
  }

  /** No archive that goes is newer than one of its target that stays. */
  lemma NothingNewerGoes(archives: seq<Archive>, keep: map<string, nat>, budget: int, i: nat, j: nat)
    requires OldestFirst(archives) && Unique(archives) && i < |archives| && j < |archives|
    requires archives[i].target == archives[j].target
    requires archives[i] in Left(archives, keep, budget) && archives[j] !in Left(archives, keep, budget)
    ensures j < i && archives[j].modified <= archives[i].modified
  {
    FittingIsSuffix(Kept(archives, keep), budget);
    assert archives[i] in Kept(archives, keep);
    KeptMember(archives, keep, i);
    KeptMember(archives, keep, j);
    if i < j {
      CountShrinks(archives, archives[i].target, i + 1, j + 1);
      LaterStays(archives, keep, budget, i, j);
    }
  }

  // ---------------------------------------------------------------- one target among the others

  function OfTarget(archives: seq<Archive>, target: string): seq<Archive> {
    if archives == [] then []
    else (if archives[0].target == target then [archives[0]] else []) + OfTarget(archives[1..], target)
  }

  function Over(count: nat, limit: nat): nat {
    if count > limit then count - limit else 0
  }

  lemma {:induction false} CountIsOfTarget(archives: seq<Archive>, target: string)
    ensures Count(archives, target) == |OfTarget(archives, target)|
  {
    if archives != [] { CountIsOfTarget(archives[1..], target); }
  }

  lemma {:induction false} KeptOfTarget(archives: seq<Archive>, keep: map<string, nat>, target: string)
    requires target in keep
    ensures var mine := OfTarget(archives, target);
            OfTarget(Kept(archives, keep), target) == mine[Over(|mine|, keep[target])..]
  {
    if archives != [] {
      KeptOfTarget(archives[1..], keep, target);
      CountIsOfTarget(archives[1..], target);
    }
  }

  lemma {:induction false} SuffixOfTarget(archives: seq<Archive>, n: nat, target: string)
    requires n <= |archives|
    ensures var mine, gone := OfTarget(archives, target), Count(archives[..n], target);
            gone <= |mine| && OfTarget(archives[n..], target) == mine[gone..]
  {
    if n > 0 {
      SuffixOfTarget(archives[1..], n - 1, target);
      assert archives[1..][n - 1..] == archives[n..];
      assert archives[..n][1..] == archives[1..][..n - 1];
    }
  }

  /**
   What is left of one target are its newest: all but the excess over its limit, and then
   all but as many more as the budget took of it, whatever the other targets have.
   */
  lemma LeftOfTarget(archives: seq<Archive>, keep: map<string, nat>, budget: int, target: string) returns (cut: nat)
    requires target in keep
    ensures var mine := OfTarget(archives, target);
            var excess := Over(|mine|, keep[target]);
            excess + cut <= |mine| && OfTarget(Left(archives, keep, budget), target) == mine[excess + cut..]
    ensures budget >= Total(Kept(archives, keep)) ==> cut == 0
  {
    var mine, kept := OfTarget(archives, target), Kept(archives, keep);
    var n := Evictions(kept, budget);
    KeptOfTarget(archives, keep, target);
    FittingIsSuffix(kept, budget);
    SuffixOfTarget(kept, n, target);
    cut := Count(kept[..n], target);
    assert mine[Over(|mine|, keep[target])..][cut..] == mine[Over(|mine|, keep[target]) + cut..];
  }

  // ---------------------------------------------------------------- the algorithm

  method CountOf(archives: seq<Archive>, target: string) returns (n: nat)
    ensures n == Count(archives, target)
  {
    n := 0;
    for k := |archives| downto 0
      invariant n == Count(archives[k..], target)
    {
      assert archives[k..][1..] == archives[k + 1..];
      if archives[k].target == target { n := n + 1; }
    }
    assert archives[0..] == archives;
  }

  /** Unlink all but the newest of each target. */
  method KeepNewest(archives: seq<Archive>, keep: map<string, nat>) returns (retained: seq<Archive>, cleaned: nat)
    ensures retained == Kept(archives, keep) && cleaned == |archives| - |retained|
  {
    retained, cleaned := [], 0;
    for k := |archives| downto 0
      invariant retained == Kept(archives[k..], keep) && cleaned == |archives| - k - |retained|
    {
      var a := archives[k];
      assert archives[k..][1..] == archives[k + 1..];
      var newer := CountOf(archives[k + 1..], a.target);
      if a.target in keep && newer >= keep[a.target] {
        cleaned := cleaned + 1;
      } else {
        retained := [a] + retained;
      }
    }
    assert archives[0..] == archives;
  }

  method Sum(archives: seq<Archive>) returns (total: nat)
    ensures total == Total(archives)
  {
    total := 0;
    for k := |archives| downto 0
      invariant total == Total(archives[k..])
    {
      assert archives[k..][1..] == archives[k + 1..];
      total := total + archives[k].bytes;
    }
    assert archives[0..] == archives;
  }

  /** Unlink the oldest until the rest fits. */
  method EvictOldest(archives: seq<Archive>, budget: int) returns (retained: seq<Archive>, cleaned: nat, total: nat)
    ensures retained == Fitting(archives, budget) && cleaned == |archives| - |retained| && total == Total(retained)
  {
    total := Sum(archives);
    cleaned := 0;
    assert archives[0..] == archives;
    while cleaned < |archives| && total > budget
      invariant cleaned <= |archives| && total == Total(archives[cleaned..])
      invariant Fitting(archives, budget) == Fitting(archives[cleaned..], budget)
    {
      assert archives[cleaned..][1..] == archives[cleaned + 1..];
      total := total - archives[cleaned].bytes;
      cleaned := cleaned + 1;
    }
    retained := archives[cleaned..];
  }

  /**
   Both passes. A dry run computes the same count and status and leaves every file; the files
   that remain are the result.
   */
  method ApplyRetentionAndBudget(archives: seq<Archive>, keep: map<string, nat>, budget: int, dryRun: bool)
    returns (files: seq<Archive>, cleaned: nat, status: Status)
    ensures files == (if dryRun then archives else Left(archives, keep, budget))
    ensures cleaned == |archives| - |Left(archives, keep, budget)|
    ensures budget >= 0 ==> status == (if cleaned > 0 then Cleaned else WithinBudget)
    ensures budget < 0 ==> status == ExceededUnrecoverable && Left(archives, keep, budget) == []
    ensures budget >= 0 ==> Total(Left(archives, keep, budget)) <= budget
  {
    var retained, aged := KeepNewest(archives, keep);
    var left, evicted, total := EvictOldest(retained, budget);
    FittingFits(retained, budget);
    cleaned := aged + evicted;
    status := if cleaned > 0 then Cleaned else WithinBudget;
    if total > budget { status := ExceededUnrecoverable; }
    files := if dryRun then archives else left;
  }
}
