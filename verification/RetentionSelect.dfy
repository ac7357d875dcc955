/**
 Which backup packages a retention plan keeps (_select in
 backend/app/deploy/backup_retention.py): newest per day, newest remaining per ISO
 week, a minimum of the newest, pins, recovery holds and the newest verified package.
 Times count microseconds from a Monday midnight UTC, so a day and an ISO week
 (section 4.1.4 of ISO 8601:2004) are quotients.
 */
module RetentionSelect {
  import opened Wrappers

  const DAY_MICROSECONDS := 86_400_000_000

  datatype Package = Package(
    id: string,
    created: int,
    digests: seq<string>,
    bytes: nat,
    verified: bool,
    pinned: bool,
    held: bool)

  datatype Policy = Policy(dailySlots: nat, weeklySlots: nat, minimum: nat, budget: nat)

  datatype Budget = WithinBudget | ExceededRecoverable | ExceededUnrecoverable

  datatype Plan = Plan(
    packages: seq<Package>,
    daily: seq<string>,
    weekly: seq<string>,
    minimum: seq<string>,
    pinned: seq<string>,
    held: seq<string>,
    verifiedFloor: string,
    protected: set<string>,
    candidates: seq<string>,
    budget: Budget,
    total: nat,
    post: int)

  datatype SelectError = VerifiedFloorViolation

  function Day(t: int): int {
    t / DAY_MICROSECONDS
  }

  function Week(t: int): int {
    Day(t) / 7
  }

  // ---------------------------------------------------------------- the order of packages

  /** Lexicographic order of identifiers by character. */
  predicate Before(a: string, b: string) {
    b != [] && (a == [] || a[0] < b[0] || (a[0] == b[0] && Before(a[1..], b[1..])))
  }

  lemma {:induction false} BeforeIrreflexive(a: string)
    ensures !Before(a, a)
    decreases |a|
  {
    if a != [] { BeforeIrreflexive(a[1..]); }
  }

  lemma {:induction false} BeforeTotal(a: string, b: string)
    ensures a == b || Before(a, b) || Before(b, a)
    ensures !(Before(a, b) && Before(b, a))
    decreases |a|
  {
    if a != [] && b != [] {
      BeforeTotal(a[1..], b[1..]);
      assert a == [a[0]] + a[1..] && b == [b[0]] + b[1..];
    }
  }

  lemma {:induction false} BeforeTransitive(a: string, b: string, c: string)
    requires Before(a, b) && Before(b, c)
    ensures Before(a, c)
    decreases |a|
  {
    if a != [] && a[0] == b[0] == c[0] { BeforeTransitive(a[1..], b[1..], c[1..]); }
  }

  /** a sorts ahead of b: created later, or at the same instant with the greater identifier. */
  predicate Newer(a: Package, b: Package) {
    a.created > b.created || (a.created == b.created && Before(b.id, a.id))
  }

  lemma NewerTotal(a: Package, b: Package)
    requires a.id != b.id
    ensures Newer(a, b) || Newer(b, a)
    ensures !(Newer(a, b) && Newer(b, a))
  {
    BeforeTotal(a.id, b.id);
  }

  lemma NewerTransitive(a: Package, b: Package, c: Package)
    requires Newer(a, b) && Newer(b, c)
    ensures Newer(a, c)
  {
    if a.created == b.created == c.created { BeforeTransitive(c.id, b.id, a.id); }
  }

  predicate Distinct(ps: seq<Package>) {
    forall i, j :: 0 <= i < j < |ps| ==> ps[i].id != ps[j].id
  }

  /** Newest first. */
  predicate Descending(ps: seq<Package>) {
    forall i, j :: 0 <= i < j < |ps| ==> Newer(ps[i], ps[j])
  }

  function Insert(p: Package, ps: seq<Package>): seq<Package> {
    if ps == [] then [p] else if Newer(p, ps[0]) then [p] + ps else [ps[0]] + Insert(p, ps[1..])
  }

  /** The packages newest first. */
  function Ordered(ps: seq<Package>): seq<Package> {
    if ps == [] then [] else Insert(ps[0], Ordered(ps[1..]))
  }

  lemma {:induction false} InsertMembers(p: Package, ps: seq<Package>)
    ensures forall q :: q in Insert(p, ps) <==> q == p || q in ps
  {
    if ps != [] {
      assert ps == [ps[0]] + ps[1..];
      InsertMembers(p, ps[1..]);
    }
  }

  lemma {:induction false} InsertDescending(p: Package, ps: seq<Package>)
    requires Descending(ps) && forall q :: q in ps ==> q.id != p.id
    ensures Descending(Insert(p, ps))
  {
    if ps == [] {
    } else if Newer(p, ps[0]) {
      forall k | 0 <= k < |ps| ensures Newer(p, ps[k]) {
        if k > 0 { NewerTransitive(p, ps[0], ps[k]); }
      }
    } else {
      NewerTotal(p, ps[0]);
      InsertMembers(p, ps[1..]);
      InsertDescending(p, ps[1..]);
      var rest := Insert(p, ps[1..]);
      forall k | 0 <= k < |rest| ensures Newer(ps[0], rest[k]) {
        assert rest[k] in rest;
      }
    }
  }

  /** Sorting keeps the packages and puts them newest first. */
  lemma {:induction false} OrderedSorts(ps: seq<Package>)
    requires Distinct(ps)
    ensures Descending(Ordered(ps))
    ensures forall q :: q in Ordered(ps) <==> q in ps
  {
    if ps != [] {
      OrderedSorts(ps[1..]);
      InsertMembers(ps[0], Ordered(ps[1..]));
      InsertDescending(ps[0], Ordered(ps[1..]));
      assert ps == [ps[0]] + ps[1..];
    }
  }

  // ---------------------------------------------------------------- winners

  /** One slot of the schedule: a UTC day, or an ISO week in which the daily winners no longer count. */
  datatype Slot = OnDay(day: int) | InWeek(week: int, taken: seq<string>)

  predicate Fits(p: Package, slot: Slot) {
    match slot
    case OnDay(d) => Day(p.created) == d
    case InWeek(w, taken) => p.id !in taken && Week(p.created) == w
  }

  /** The first package of the list that fits. */
  function Winner(ps: seq<Package>, slot: Slot): Option<string> {
    if ps == [] then None else if Fits(ps[0], slot) then Some(ps[0].id) else Winner(ps[1..], slot)
  }

  function Listed(o: Option<string>): seq<string> {
    if o.Some? then [o.value] else []
  }

  /** Winners of the last n days up to today. */
  function DailyWinners(ps: seq<Package>, today: int, n: nat): seq<string> {
    if n == 0 then [] else DailyWinners(ps, today, n - 1) + Listed(Winner(ps, OnDay(today - (n - 1))))
  }

  /** Winners of the last n weeks up to this one. */
  function WeeklyWinners(ps: seq<Package>, thisWeek: int, taken: seq<string>, n: nat): seq<string> {
    if n == 0 then []
    else WeeklyWinners(ps, thisWeek, taken, n - 1) + Listed(Winner(ps, InWeek(thisWeek - (n - 1), taken)))
  }

  function Ids(ps: seq<Package>): seq<string> {
    if ps == [] then [] else [ps[0].id] + Ids(ps[1..])
  }

  function Least(a: nat, b: nat): nat {
    if a < b then a else b
  }

  datatype Mark = Pinned | Held | Verified

  predicate Marked(p: Package, m: Mark) {
    match m case Pinned => p.pinned case Held => p.held case Verified => p.verified
  }

  /** The packages that carry a mark, in the order of the list. */
  function Having(ps: seq<Package>, m: Mark): seq<string> {
    if ps == [] then [] else if Marked(ps[0], m) then [ps[0].id] + Having(ps[1..], m) else Having(ps[1..], m)
  }

  function Elements(ids: seq<string>): set<string> {
    set x | x in ids
  }

  /** What is not protected, from the far end of the list: oldest first. */
  function Unprotected(ps: seq<Package>, protected: set<string>): seq<string> {
    if ps == [] then []
    else Unprotected(ps[1..], protected) + (if ps[0].id in protected then [] else [ps[0].id])
  }

  function Bytes(ps: seq<Package>): nat {
    if ps == [] then 0 else ps[0].bytes + Bytes(ps[1..])
  }

  /** Bytes of the listed packages only. */
  function BytesOf(ps: seq<Package>, ids: set<string>): nat {
    if ps == [] then 0 else (if ps[0].id in ids then ps[0].bytes else 0) + BytesOf(ps[1..], ids)
  }

  function BudgetStatus(total: int, post: int, budget: int): Budget {
    if total <= budget then WithinBudget else if post <= budget then ExceededRecoverable else ExceededUnrecoverable
  }

  function Protected(ordered: seq<Package>, policy: Policy, reference: int, floor: string): set<string> {
    var daily := DailyWinners(ordered, Day(reference), policy.dailySlots);
    Elements(daily)
    + Elements(WeeklyWinners(ordered, Week(reference), daily, policy.weeklySlots))
    + Elements(Ids(ordered[..Least(policy.minimum, |ordered|)]))
    + Elements(Having(ordered, Pinned)) + Elements(Having(ordered, Held)) + {floor}
  }

  /** The plan for a set of packages, or the refusal when none of them is verified. */
  function PlanFor(packages: seq<Package>, policy: Policy, reference: int): Result<Plan, SelectError> {
    var ordered := Ordered(packages);
    var verified := Having(ordered, Verified);
    if verified == [] then Err(VerifiedFloorViolation)
    else
      var daily := DailyWinners(ordered, Day(reference), policy.dailySlots);
      var protected := Protected(ordered, policy, reference, verified[0]);
      var candidates := Unprotected(ordered, protected);
      var total := Bytes(ordered);
      var post: int := total - BytesOf(ordered, Elements(candidates));
      Ok(Plan(packages, daily, WeeklyWinners(ordered, Week(reference), daily, policy.weeklySlots),
              Ids(ordered[..Least(policy.minimum, |ordered|)]), Having(ordered, Pinned), Having(ordered, Held),
              verified[0], protected, candidates, BudgetStatus(total, post, policy.budget), total, post))
  }

  // ---------------------------------------------------------------- what the winners are

  /** p is the newest of the packages that fit the slot. */
  predicate NewestFit(ps: seq<Package>, slot: Slot, p: Package) {
    p in ps && Fits(p, slot) && forall q :: q in ps && Fits(q, slot) ==> q == p || Newer(p, q)
  }

  lemma {:induction false} WinnerIsNewest(ps: seq<Package>, slot: Slot)
    requires Descending(ps)
    ensures Winner(ps, slot).None? ==> forall q :: q in ps ==> !Fits(q, slot)
    ensures Winner(ps, slot).Some? ==> exists p :: NewestFit(ps, slot, p) && p.id == Winner(ps, slot).value
  {
    if ps != [] {
      assert ps == [ps[0]] + ps[1..];
      if Fits(ps[0], slot) {
        forall q | q in ps && Fits(q, slot) ensures q == ps[0] || Newer(ps[0], q) {
          var k :| 0 <= k < |ps| && ps[k] == q;
        }
        assert NewestFit(ps, slot, ps[0]);
      } else {
        WinnerIsNewest(ps[1..], slot);
        if Winner(ps[1..], slot).Some? {
          var p :| NewestFit(ps[1..], slot, p) && p.id == Winner(ps, slot).value;
          assert NewestFit(ps, slot, p);
        }
      }
    }
  }

  /** With distinct identifiers the winner's identifier is exactly that of the newest fit. */
  lemma WinnerExactly(ps: seq<Package>, slot: Slot, p: Package)
    requires Descending(ps) && Distinct(ps) && p in ps
    ensures Winner(ps, slot) == Some(p.id) <==> NewestFit(ps, slot, p)
  {
    WinnerIsNewest(ps, slot);
    if Winner(ps, slot).Some? {
      var w :| NewestFit(ps, slot, w) && w.id == Winner(ps, slot).value;
      if w.id == p.id { SameIdSame(ps, w, p); }
      if NewestFit(ps, slot, p) && w != p { NeverBothNewer(ps, w, p); }
    }
  }

  lemma SameIdSame(ps: seq<Package>, a: Package, b: Package)
    requires Distinct(ps) && a in ps && b in ps && a.id == b.id
    ensures a == b
  {
  }

  lemma NeverBothNewer(ps: seq<Package>, a: Package, b: Package)
    requires Distinct(ps) && a in ps && b in ps && a != b
    ensures !(Newer(a, b) && Newer(b, a))
  {
    if a.id == b.id { SameIdSame(ps, a, b); }
    NewerTotal(a, b);
  }

  lemma {:induction false} DailyByDay(ps: seq<Package>, today: int, n: nat, id: string)
    ensures id in DailyWinners(ps, today, n) <==> exists d :: today - n < d <= today && Winner(ps, OnDay(d)) == Some(id)
  {
    if n > 0 {
      var d := today - (n - 1);
      DailyByDay(ps, today, n - 1, id);
      assert id in Listed(Winner(ps, OnDay(d))) <==> Winner(ps, OnDay(d)) == Some(id);
    }
  }

  lemma {:induction false} WeeklyByWeek(ps: seq<Package>, week: int, taken: seq<string>, n: nat, id: string)
    ensures id in WeeklyWinners(ps, week, taken, n)
            <==> exists w :: week - n < w <= week && Winner(ps, InWeek(w, taken)) == Some(id)
  {
    if n > 0 {
      var w := week - (n - 1);
      WeeklyByWeek(ps, week, taken, n - 1, id);
      assert id in Listed(Winner(ps, InWeek(w, taken))) <==> Winner(ps, InWeek(w, taken)) == Some(id);
    }
  }

  lemma SlotOfWinner(ps: seq<Package>, slot: Slot, p: Package)
    requires Descending(ps) && Distinct(ps) && p in ps && Winner(ps, slot) == Some(p.id)
    ensures NewestFit(ps, slot, p)
  {
    WinnerExactly(ps, slot, p);
  }

  lemma {:induction false} SortedDistinct(ps: seq<Package>)
    requires Distinct(ps)
    ensures Distinct(Ordered(ps)) && Descending(Ordered(ps)) && |Ordered(ps)| == |ps|
    ensures forall q :: q in Ordered(ps) <==> q in ps
  {
    OrderedSorts(ps);
    OrderedLength(ps);
    forall i, j | 0 <= i < j < |ps| ensures Ordered(ps)[i].id != Ordered(ps)[j].id {
      var a, b := Ordered(ps)[i], Ordered(ps)[j];
      assert a in Ordered(ps) && b in Ordered(ps);
      if a.id == b.id {
        SameIdSame(ps, a, b);
        BeforeIrreflexive(a.id);
      }
    }
  }

  lemma {:induction false} OrderedLength(ps: seq<Package>)
    ensures |Ordered(ps)| == |ps|
  {
    if ps != [] {
      OrderedLength(ps[1..]);
      InsertLength(ps[0], Ordered(ps[1..]));
    }
  }

  lemma {:induction false} InsertLength(p: Package, ps: seq<Package>)
    ensures |Insert(p, ps)| == |ps| + 1
  {
    if ps != [] { InsertLength(p, ps[1..]); }
  }

  lemma SameSetSameNewest(ps: seq<Package>, qs: seq<Package>, slot: Slot, p: Package)
    requires forall q :: q in ps <==> q in qs
    ensures NewestFit(ps, slot, p) <==> NewestFit(qs, slot, p)
  {
  }

  /** A package wins a day exactly when it lies in the daily window and is the newest of its UTC day. */
  lemma DailyIsNewestOfDay(packages: seq<Package>, policy: Policy, reference: int, p: Package)
    requires Distinct(packages) && PlanFor(packages, policy, reference).Ok? && p in packages
    ensures p.id in PlanFor(packages, policy, reference).value.daily
            <==> && Day(reference) - policy.dailySlots < Day(p.created) <= Day(reference)
                 && NewestFit(packages, OnDay(Day(p.created)), p)
  {
    var ordered := Ordered(packages);
    SortedDistinct(packages);
    DailyByDay(ordered, Day(reference), policy.dailySlots, p.id);
    var own := OnDay(Day(p.created));
    WinnerExactly(ordered, own, p);
    SameSetSameNewest(ordered, packages, own, p);
    if d :| Day(reference) - policy.dailySlots < d <= Day(reference) && Winner(ordered, OnDay(d)) == Some(p.id) {
      SlotOfWinner(ordered, OnDay(d), p);
    }
  }

  /** A package wins a week exactly when it is in the weekly window, no daily winner, and the newest such of its ISO week. */
  lemma WeeklyIsNewestRemaining(packages: seq<Package>, policy: Policy, reference: int, p: Package)
    requires Distinct(packages) && PlanFor(packages, policy, reference).Ok? && p in packages
    ensures var plan := PlanFor(packages, policy, reference).value;
            p.id in plan.weekly
            <==> && Week(reference) - policy.weeklySlots < Week(p.created) <= Week(reference)
                 && p.id !in plan.daily
                 && NewestFit(packages, InWeek(Week(p.created), plan.daily), p)
  {
    var ordered := Ordered(packages);
    var daily := DailyWinners(ordered, Day(reference), policy.dailySlots);
    SortedDistinct(packages);
    WeeklyByWeek(ordered, Week(reference), daily, policy.weeklySlots, p.id);
    var own := InWeek(Week(p.created), daily);
    WinnerExactly(ordered, own, p);
    SameSetSameNewest(ordered, packages, own, p);
    if w :| Week(reference) - policy.weeklySlots < w <= Week(reference) && Winner(ordered, InWeek(w, daily)) == Some(p.id) {
      SlotOfWinner(ordered, InWeek(w, daily), p);
    }
  }

  lemma {:induction false} IdsMember(ps: seq<Package>, id: string)
    ensures id in Ids(ps) <==> exists p :: p in ps && p.id == id
    ensures |Ids(ps)| == |ps|
  {
    if ps != [] {
      assert ps == [ps[0]] + ps[1..];
      IdsMember(ps[1..], id);
      if p :| p in ps && p.id == id { assert p == ps[0] || p in ps[1..]; }
    }
  }

  lemma {:induction false} HavingMember(ps: seq<Package>, m: Mark, id: string)
    ensures id in Having(ps, m) <==> exists p :: p in ps && p.id == id && Marked(p, m)
  {
    if ps != [] {
      assert ps == [ps[0]] + ps[1..];
      HavingMember(ps[1..], m, id);
      if p :| p in ps && p.id == id && Marked(p, m) { assert p == ps[0] || p in ps[1..]; }
    }
  }

  /** The minimum is the newest packages: as many as asked for or there are, each newer than every other package. */
  lemma MinimumIsNewest(packages: seq<Package>, policy: Policy, reference: int, p: Package, q: Package)
    requires Distinct(packages) && PlanFor(packages, policy, reference).Ok? && p in packages && q in packages
    ensures var least := PlanFor(packages, policy, reference).value.minimum;
            && |least| == Least(policy.minimum, |packages|)
            && (p.id in least && q.id !in least ==> Newer(p, q))
  {
    var ordered := Ordered(packages);
    var n := Least(policy.minimum, |ordered|);
    SortedDistinct(packages);
    IdsMember(ordered[..n], p.id);
    IdsMember(ordered[..n], q.id);
    if p.id in Ids(ordered[..n]) && q.id !in Ids(ordered[..n]) {
      var p' :| p' in ordered[..n] && p'.id == p.id;
      SameIdSame(ordered, p, p');
      var i :| 0 <= i < n && ordered[..n][i] == p;
      assert q !in ordered[..n];
      var j :| 0 <= j < |ordered| && ordered[j] == q;
      assert forall k :: 0 <= k < n ==> ordered[k] in ordered[..n];
    }
  }

  /** The verified floor is the newest verified package; a plan is refused exactly when there is none. */
  lemma FloorIsNewestVerified(packages: seq<Package>, policy: Policy, reference: int, p: Package)
    requires Distinct(packages) && p in packages && p.verified
    ensures PlanFor(packages, policy, reference).Ok?
    ensures p.id == PlanFor(packages, policy, reference).value.verifiedFloor
            <==> forall q :: q in packages && q.verified ==> q == p || Newer(p, q)
  {
    var ordered := Ordered(packages);
    SortedDistinct(packages);
    HavingMember(ordered, Verified, p.id);
    FirstVerified(ordered);
    var f :| f in ordered && f.verified && f.id == Having(ordered, Verified)[0]
             && forall q :: q in ordered && q.verified ==> q == f || Newer(f, q);
    if f.id == p.id { SameIdSame(ordered, f, p); }
    if f != p && forall q :: q in packages && q.verified ==> q == p || Newer(p, q) { NeverBothNewer(ordered, f, p); }
  }

  lemma {:induction false} FirstVerified(ps: seq<Package>)
    requires Descending(ps) && Having(ps, Verified) != []
    ensures exists f :: f in ps && f.verified && f.id == Having(ps, Verified)[0]
                        && forall q :: q in ps && q.verified ==> q == f || Newer(f, q)
  {
    assert ps == [ps[0]] + ps[1..];
    if ps[0].verified {
      forall q | q in ps && q.verified ensures q == ps[0] || Newer(ps[0], q) {
        var k :| 0 <= k < |ps| && ps[k] == q;
      }
      assert ps[0] in ps;
    } else {
      FirstVerified(ps[1..]);
    }
  }

  lemma NoneVerifiedRefused(packages: seq<Package>, policy: Policy, reference: int)
    requires Distinct(packages) && forall p :: p in packages ==> !p.verified
    ensures PlanFor(packages, policy, reference) == Err(VerifiedFloorViolation)
  {
    var ordered := Ordered(packages);
    SortedDistinct(packages);
    if Having(ordered, Verified) != [] { HavingMember(ordered, Verified, Having(ordered, Verified)[0]); }
  }

  // ---------------------------------------------------------------- conservation

  lemma {:induction false} UnprotectedMember(ps: seq<Package>, protected: set<string>, id: string)
    ensures id in Unprotected(ps, protected) <==> id !in protected && exists p :: p in ps && p.id == id
  {
    if ps != [] {
      assert ps == [ps[0]] + ps[1..];
      UnprotectedMember(ps[1..], protected, id);
      if p :| p in ps && p.id == id { assert p == ps[0] || p in ps[1..]; }
    }
  }

  /** A package is protected exactly when it won a slot, is among the minimum, is pinned or held, or is the floor. */
  lemma ProtectedExactly(packages: seq<Package>, policy: Policy, reference: int, p: Package)
    requires Distinct(packages) && PlanFor(packages, policy, reference).Ok? && p in packages
    ensures var plan := PlanFor(packages, policy, reference).value;
            && (p.id in plan.pinned <==> p.pinned) && (p.id in plan.held <==> p.held)
            && (p.id in plan.protected
                <==> p.id in plan.daily || p.id in plan.weekly || p.id in plan.minimum || p.pinned || p.held
                     || p.id == plan.verifiedFloor)
  {
    var ordered := Ordered(packages);
    SortedDistinct(packages);
    MarkedExactly(ordered, Pinned, p);
    MarkedExactly(ordered, Held, p);
  }

  lemma MarkedExactly(ps: seq<Package>, m: Mark, p: Package)
    requires Distinct(ps) && p in ps
    ensures p.id in Having(ps, m) <==> Marked(p, m)
  {
    HavingMember(ps, m, p.id);
    if q :| q in ps && q.id == p.id && Marked(q, m) { SameIdSame(ps, p, q); }
  }

  /** Every package is either protected or a candidate, and never both. */
  lemma PartitionsPackages(packages: seq<Package>, policy: Policy, reference: int, p: Package)
    requires Distinct(packages) && PlanFor(packages, policy, reference).Ok? && p in packages
    ensures var plan := PlanFor(packages, policy, reference).value;
            p.id in plan.candidates <==> p.id !in plan.protected
  {
    SortedDistinct(packages);
    UnprotectedMember(Ordered(packages), PlanFor(packages, policy, reference).value.protected, p.id);
  }

  lemma CandidatesArePackages(packages: seq<Package>, policy: Policy, reference: int, id: string)
    requires Distinct(packages) && PlanFor(packages, policy, reference).Ok?
    requires id in PlanFor(packages, policy, reference).value.candidates
    ensures exists p :: p in packages && p.id == id
    ensures id !in PlanFor(packages, policy, reference).value.protected
  {
    SortedDistinct(packages);
    UnprotectedMember(Ordered(packages), PlanFor(packages, policy, reference).value.protected, id);
    var p :| p in Ordered(packages) && p.id == id;
    assert p in packages;
  }

  lemma CandidateInTail(ps: seq<Package>, protected: set<string>, k: nat, p: Package)
    requires ps != [] && Distinct(ps) && p in ps && k < |Unprotected(ps[1..], protected)|
    requires p.id == Unprotected(ps[1..], protected)[k]
    ensures p in ps[1..]
  {
    var rest := Unprotected(ps[1..], protected);
    UnprotectedMember(ps[1..], protected, rest[k]);
    var p' :| p' in ps[1..] && p'.id == p.id;
    SameIdSame(ps, p, p');
  }

  lemma {:induction false} UnprotectedOldestFirst(ps: seq<Package>, protected: set<string>, i: nat, j: nat, p: Package, q: Package)
    requires Distinct(ps) && Descending(ps) && i < j < |Unprotected(ps, protected)| && p in ps && q in ps
    requires p.id == Unprotected(ps, protected)[i] && q.id == Unprotected(ps, protected)[j]
    ensures Newer(q, p)
  {
    CandidateInTail(ps, protected, i, p);
    if j < |Unprotected(ps[1..], protected)| {
      CandidateInTail(ps, protected, j, q);
      UnprotectedOldestFirst(ps[1..], protected, i, j, p, q);
    } else {
      SameIdSame(ps, q, ps[0]);
      var k :| 0 <= k < |ps[1..]| && ps[1..][k] == p;
      assert Newer(ps[0], ps[k + 1]);
    }
  }

  /** Candidates come oldest first. */
  lemma CandidatesOldestFirst(packages: seq<Package>, policy: Policy, reference: int, i: nat, j: nat, p: Package, q: Package)
    requires Distinct(packages) && PlanFor(packages, policy, reference).Ok? && p in packages && q in packages
    requires i < j < |PlanFor(packages, policy, reference).value.candidates|
    requires p.id == PlanFor(packages, policy, reference).value.candidates[i]
    requires q.id == PlanFor(packages, policy, reference).value.candidates[j]
    ensures Newer(q, p)
  {
    SortedDistinct(packages);
    UnprotectedOldestFirst(Ordered(packages), PlanFor(packages, policy, reference).value.protected, i, j, p, q);
  }

  lemma {:induction false} BytesSplit(ps: seq<Package>, a: set<string>, b: set<string>)
    requires forall p :: p in ps ==> (p.id in a <==> p.id !in b)
    ensures BytesOf(ps, a) + BytesOf(ps, b) == Bytes(ps)
  {
    if ps != [] {
      assert ps[0] in ps;
      assert forall p :: p in ps[1..] ==> p in ps;
      BytesSplit(ps[1..], a, b);
    }
  }

  lemma {:induction false} BytesOfInsert(p: Package, ps: seq<Package>, ids: set<string>)
    ensures BytesOf(Insert(p, ps), ids) == (if p.id in ids then p.bytes else 0) + BytesOf(ps, ids)
  {
    if ps != [] { BytesOfInsert(p, ps[1..], ids); }
  }

  lemma {:induction false} BytesOfOrdered(ps: seq<Package>, ids: set<string>)
    ensures BytesOf(Ordered(ps), ids) == BytesOf(ps, ids)
  {
    if ps != [] {
      BytesOfOrdered(ps[1..], ids);
      BytesOfInsert(ps[0], Ordered(ps[1..]), ids);
    }
  }

  lemma {:induction false} BytesInsert(p: Package, ps: seq<Package>)
    ensures Bytes(Insert(p, ps)) == p.bytes + Bytes(ps)
  {
    if ps != [] { BytesInsert(p, ps[1..]); }
  }

  lemma {:induction false} BytesOrdered(ps: seq<Package>)
    ensures Bytes(Ordered(ps)) == Bytes(ps)
  {
    if ps != [] {
      BytesOrdered(ps[1..]);
      BytesInsert(ps[0], Ordered(ps[1..]));
    }
  }

  /** What remains after the plan is exactly the protected packages, and it decides the budget status. */
  lemma PostIsProtectedBytes(packages: seq<Package>, policy: Policy, reference: int)
    requires Distinct(packages) && PlanFor(packages, policy, reference).Ok?
    ensures var plan := PlanFor(packages, policy, reference).value;
            && plan.post == BytesOf(packages, plan.protected)
            && plan.total == Bytes(packages) == plan.post + BytesOf(packages, Elements(plan.candidates))
            && (plan.budget == WithinBudget <==> Bytes(packages) <= policy.budget)
            && (plan.budget == ExceededUnrecoverable <==> BytesOf(packages, plan.protected) > policy.budget)
  {
    BytesOrdered(packages);
    var plan := PlanFor(packages, policy, reference).value;
    var ordered := Ordered(packages);
    SortedDistinct(packages);
    forall p | p in ordered ensures p.id in Elements(plan.candidates) <==> p.id !in plan.protected {
      UnprotectedMember(ordered, plan.protected, p.id);
    }
    BytesSplit(ordered, Elements(plan.candidates), plan.protected);
    BytesOfOrdered(packages, Elements(plan.candidates));
    BytesOfOrdered(packages, plan.protected);
  }

  // ---------------------------------------------------------------- stability

  /** The packages left when some are gone. */
  function Remaining(ps: seq<Package>, gone: set<string>): seq<Package> {
    if ps == [] then []
    else if ps[0].id in gone then Remaining(ps[1..], gone)
    else [ps[0]] + Remaining(ps[1..], gone)
  }

  /** Unfolding over the first package. */
  lemma RemainingHead(ps: seq<Package>, gone: set<string>)
    requires ps != [] && ps[0].id !in gone
    ensures var rest := Remaining(ps, gone); rest != [] && rest[0] == ps[0] && rest[1..] == Remaining(ps[1..], gone)
  {
  }

  lemma {:induction false} RemainingMember(ps: seq<Package>, gone: set<string>)
    ensures forall q :: q in Remaining(ps, gone) <==> q in ps && q.id !in gone
  {
    if ps != [] {
      assert ps == [ps[0]] + ps[1..];
      RemainingMember(ps[1..], gone);
    }
  }

  lemma {:induction false} RemainingInsert(p: Package, ps: seq<Package>, gone: set<string>)
    requires Descending(ps) && forall q :: q in ps ==> q.id != p.id
    ensures Remaining(Insert(p, ps), gone) == if p.id in gone then Remaining(ps, gone) else Insert(p, Remaining(ps, gone))
  {
    if ps == [] {
    } else if Newer(p, ps[0]) {
      assert Insert(p, ps)[1..] == ps;
      InsertAhead(p, ps, gone);
    } else {
      assert Insert(p, ps) == [ps[0]] + Insert(p, ps[1..]);
      RemainingInsert(p, ps[1..], gone);
      assert Insert(p, ps)[1..] == Insert(p, ps[1..]);
      if ps[0].id !in gone { RemainingHead(ps, gone); }
    }
  }

  lemma {:induction false} InsertAhead(p: Package, ps: seq<Package>, gone: set<string>)
    requires Descending(ps) && ps != [] && Newer(p, ps[0])
    ensures Insert(p, Remaining(ps, gone)) == [p] + Remaining(ps, gone)
  {
    if ps[0].id in gone && |ps| > 1 {
      NewerTransitive(p, ps[0], ps[1]);
      InsertAhead(p, ps[1..], gone);
    }
  }

  /** Sorting and removing commute. */
  lemma {:induction false} OrderedRemaining(ps: seq<Package>, gone: set<string>)
    requires Distinct(ps)
    ensures Ordered(Remaining(ps, gone)) == Remaining(Ordered(ps), gone)
  {
    if ps != [] {
      OrderedRemaining(ps[1..], gone);
      OrderedSorts(ps[1..]);
      RemainingInsert(ps[0], Ordered(ps[1..]), gone);
    }
  }

  lemma {:induction false} WinnerRemains(ps: seq<Package>, gone: set<string>, slot: Slot)
    requires Winner(ps, slot).Some? ==> Winner(ps, slot).value !in gone
    ensures Winner(Remaining(ps, gone), slot) == Winner(ps, slot)
  {
    if ps != [] {
      if !Fits(ps[0], slot) { WinnerRemains(ps[1..], gone, slot); }
      if ps[0].id !in gone { RemainingHead(ps, gone); }
    }
  }

  lemma {:induction false} DailyRemains(ps: seq<Package>, gone: set<string>, today: int, n: nat)
    requires Elements(DailyWinners(ps, today, n)) !! gone
    ensures DailyWinners(Remaining(ps, gone), today, n) == DailyWinners(ps, today, n)
  {
    if n > 0 {
      var w := Winner(ps, OnDay(today - (n - 1)));
      if w.Some? { assert w.value in DailyWinners(ps, today, n); }
      assert Elements(DailyWinners(ps, today, n - 1)) <= Elements(DailyWinners(ps, today, n));
      WinnerRemains(ps, gone, OnDay(today - (n - 1)));
      DailyRemains(ps, gone, today, n - 1);
    }
  }

  lemma {:induction false} WeeklyRemains(ps: seq<Package>, gone: set<string>, week: int, taken: seq<string>, n: nat)
    requires Elements(WeeklyWinners(ps, week, taken, n)) !! gone
    ensures WeeklyWinners(Remaining(ps, gone), week, taken, n) == WeeklyWinners(ps, week, taken, n)
  {
    if n > 0 {
      var w := Winner(ps, InWeek(week - (n - 1), taken));
      if w.Some? { assert w.value in WeeklyWinners(ps, week, taken, n); }
      assert Elements(WeeklyWinners(ps, week, taken, n - 1)) <= Elements(WeeklyWinners(ps, week, taken, n));
      WinnerRemains(ps, gone, InWeek(week - (n - 1), taken));
      WeeklyRemains(ps, gone, week, taken, n - 1);
    }
  }

  lemma {:induction false} LengthRemains(ps: seq<Package>, gone: set<string>)
    ensures |Remaining(ps, gone)| <= |ps|
  {
    if ps != [] { LengthRemains(ps[1..], gone); }
  }

  lemma {:induction false} FirstRemain(ps: seq<Package>, gone: set<string>, n: nat)
    requires Elements(Ids(ps[..Least(n, |ps|)])) !! gone
    ensures var rest := Remaining(ps, gone); Ids(rest[..Least(n, |rest|)]) == Ids(ps[..Least(n, |ps|)])
  {
    LengthRemains(ps, gone);
    if ps != [] && n > 0 {
      var rest := Remaining(ps, gone);
      var first := ps[..Least(n, |ps|)];
      assert first[1..] == ps[1..][..Least(n - 1, |ps[1..]|)];
      assert Ids(first) == [ps[0].id] + Ids(first[1..]);
      assert ps[0].id in Elements(Ids(first));
      assert Elements(Ids(first[1..])) <= Elements(Ids(first));
      FirstRemain(ps[1..], gone, n - 1);
      assert rest == [ps[0]] + Remaining(ps[1..], gone);
      assert rest[..Least(n, |rest|)] == [ps[0]] + rest[1..][..Least(n - 1, |rest[1..]|)];
    }
  }

  lemma {:induction false} HavingRemains(ps: seq<Package>, gone: set<string>, m: Mark)
    requires Elements(Having(ps, m)) !! gone
    ensures Having(Remaining(ps, gone), m) == Having(ps, m)
  {
    if ps != [] {
      var rest := Having(ps[1..], m);
      assert Elements(rest) <= Elements(Having(ps, m));
      if Marked(ps[0], m) { assert ps[0].id in Having(ps, m); }
      HavingRemains(ps[1..], gone, m);
      if ps[0].id !in gone { RemainingHead(ps, gone); }
    }
  }

  /** The newest verified package stays the newest verified one as long as it is there. */
  lemma {:induction false} FloorRemains(ps: seq<Package>, gone: set<string>)
    requires Having(ps, Verified) != [] && Having(ps, Verified)[0] !in gone
    ensures Having(Remaining(ps, gone), Verified) != [] && Having(Remaining(ps, gone), Verified)[0] == Having(ps, Verified)[0]
  {
    if !ps[0].verified { FloorRemains(ps[1..], gone); }
    if ps[0].id !in gone { RemainingHead(ps, gone); }
  }

  function Without(ids: seq<string>, gone: set<string>): seq<string> {
    if ids == [] then [] else if ids[0] in gone then Without(ids[1..], gone) else [ids[0]] + Without(ids[1..], gone)
  }

  lemma {:induction false} WithoutConcat(a: seq<string>, b: seq<string>, gone: set<string>)
    ensures Without(a + b, gone) == Without(a, gone) + Without(b, gone)
  {
    if a == [] {
      assert a + b == b;
    } else {
      assert (a + b)[1..] == a[1..] + b;
      WithoutConcat(a[1..], b, gone);
    }
  }

  lemma {:induction false} UnprotectedRemains(ps: seq<Package>, gone: set<string>, protected: set<string>)
    ensures Unprotected(Remaining(ps, gone), protected) == Without(Unprotected(ps, protected), gone)
  {
    if ps != [] {
      var last := if ps[0].id in protected then [] else [ps[0].id];
      UnprotectedRemains(ps[1..], gone, protected);
      WithoutConcat(Unprotected(ps[1..], protected), last, gone);
      if ps[0].id !in gone {
        RemainingHead(ps, gone);
      } else {
        assert Without(last, gone) == [];
      }
    }
  }

  /** Protection computed before and after some candidates have gone. */
  lemma ProtectedRemains(ordered: seq<Package>, gone: set<string>, policy: Policy, reference: int, floor: string)
    requires Protected(ordered, policy, reference, floor) !! gone
    ensures Protected(Remaining(ordered, gone), policy, reference, floor) == Protected(ordered, policy, reference, floor)
    ensures var daily := DailyWinners(ordered, Day(reference), policy.dailySlots);
            var rest := Remaining(ordered, gone);
            && DailyWinners(rest, Day(reference), policy.dailySlots) == daily
            && WeeklyWinners(rest, Week(reference), daily, policy.weeklySlots)
               == WeeklyWinners(ordered, Week(reference), daily, policy.weeklySlots)
            && Ids(rest[..Least(policy.minimum, |rest|)]) == Ids(ordered[..Least(policy.minimum, |ordered|)])
            && Having(rest, Pinned) == Having(ordered, Pinned) && Having(rest, Held) == Having(ordered, Held)
  {
    DailyRemains(ordered, gone, Day(reference), policy.dailySlots);
    WeeklyRemains(ordered, gone, Week(reference), DailyWinners(ordered, Day(reference), policy.dailySlots), policy.weeklySlots);
    FirstRemain(ordered, gone, policy.minimum);
    HavingRemains(ordered, gone, Pinned);
    HavingRemains(ordered, gone, Held);
  }

  /**
   Removing any of a plan's candidates and planning again, with the same policy and
   reference, selects the same winners and protects the same packages; the candidates are
   those that remain.
   */
  lemma SelectionIsStable(packages: seq<Package>, policy: Policy, reference: int, gone: set<string>)
    requires Distinct(packages) && PlanFor(packages, policy, reference).Ok?
    requires gone <= Elements(PlanFor(packages, policy, reference).value.candidates)
    ensures var plan := PlanFor(packages, policy, reference).value;
            var again := PlanFor(Remaining(packages, gone), policy, reference);
            && again.Ok?
            && again.value.daily == plan.daily && again.value.weekly == plan.weekly && again.value.minimum == plan.minimum
            && again.value.pinned == plan.pinned && again.value.held == plan.held
            && again.value.verifiedFloor == plan.verifiedFloor && again.value.protected == plan.protected
            && again.value.candidates == Without(plan.candidates, gone)
  {
    var plan := PlanFor(packages, policy, reference).value;
    var ordered := Ordered(packages);
    forall id | id in gone ensures id !in plan.protected { UnprotectedMember(ordered, plan.protected, id); }
    OrderedRemaining(packages, gone);
    ProtectedRemains(ordered, gone, policy, reference, plan.verifiedFloor);
    FloorRemains(ordered, gone);
    UnprotectedRemains(ordered, gone, plan.protected);
  }

  lemma {:induction false} WithoutAll(ids: seq<string>, gone: set<string>)
    requires forall id :: id in ids ==> id in gone
    ensures Without(ids, gone) == []
  {
    if ids != [] { WithoutAll(ids[1..], gone); }
  }

  lemma {:induction false} BytesRemaining(ps: seq<Package>, gone: set<string>, ids: set<string>)
    requires ids !! gone
    ensures BytesOf(Remaining(ps, gone), ids) == BytesOf(ps, ids)
  {
    if ps != [] {
      BytesRemaining(ps[1..], gone, ids);
      if ps[0].id !in gone { RemainingHead(ps, gone); }
    }
  }

  /** A plan that has been carried out leaves nothing to do: the next one has no candidates and the promised size. */
  lemma AppliedPlanIsFinal(packages: seq<Package>, policy: Policy, reference: int)
    requires Distinct(packages) && PlanFor(packages, policy, reference).Ok?
    ensures var plan := PlanFor(packages, policy, reference).value;
            var again := PlanFor(Remaining(packages, Elements(plan.candidates)), policy, reference);
            again.Ok? && again.value.candidates == [] && again.value.post == plan.post
  {
    var plan := PlanFor(packages, policy, reference).value;
    var gone := Elements(plan.candidates);
    var rest := Remaining(packages, gone);
    SelectionIsStable(packages, policy, reference, gone);
    WithoutAll(plan.candidates, gone);
    forall id | id in gone ensures id !in plan.protected { UnprotectedMember(Ordered(packages), plan.protected, id); }
    PostIsProtectedBytes(packages, policy, reference);
    RemainingDistinct(packages, gone);
    PostIsProtectedBytes(rest, policy, reference);
    BytesRemaining(packages, gone, plan.protected);
  }

  lemma {:induction false} RemainingDistinct(ps: seq<Package>, gone: set<string>)
    requires Distinct(ps)
    ensures Distinct(Remaining(ps, gone))
  {
    if ps != [] {
      RemainingDistinct(ps[1..], gone);
      RemainingMember(ps[1..], gone);
      var rest := Remaining(ps[1..], gone);
      forall k | 0 <= k < |rest| ensures rest[k].id != ps[0].id {
        assert rest[k] in rest && rest[k] in ps[1..];
        var j :| 0 <= j < |ps[1..]| && ps[1..][j] == rest[k];
        assert ps[j + 1].id != ps[0].id;
      }
    }
  }

  // ---------------------------------------------------------------- the algorithm

  /** First match in the list, as a scan. */
  method FirstFit(ps: seq<Package>, slot: Slot) returns (winner: Option<string>)
    ensures winner == Winner(ps, slot)
  {
    for k := 0 to |ps|
      invariant Winner(ps, slot) == Winner(ps[k..], slot)
    {
      assert ps[k..][1..] == ps[k + 1..];
      if Fits(ps[k], slot) { return Some(ps[k].id); }
    }
    winner := None;
  }

  method Sort(packages: seq<Package>) returns (ordered: seq<Package>)
    ensures ordered == Ordered(packages)
  {
    ordered := [];
    for k := |packages| downto 0
      invariant ordered == Ordered(packages[k..])
    {
      ordered := Insert(packages[k], ordered);
      assert packages[k..] == [packages[k]] + packages[k + 1..];
    }
    assert packages[0..] == packages;
  }

  method SumBytes(ps: seq<Package>, ids: set<string>) returns (total: nat, listed: nat)
    ensures total == Bytes(ps) && listed == BytesOf(ps, ids) && listed <= total
  {
    total, listed := 0, 0;
    for k := |ps| downto 0
      invariant total == Bytes(ps[k..]) && listed == BytesOf(ps[k..], ids) && listed <= total
    {
      assert ps[k..] == [ps[k]] + ps[k + 1..];
      total := total + ps[k].bytes;
      if ps[k].id in ids { listed := listed + ps[k].bytes; }
    }
    assert ps[0..] == ps;
  }

  method Collect(ps: seq<Package>, m: Mark) returns (ids: seq<string>)
    ensures ids == Having(ps, m)
  {
    ids := [];
    for k := |ps| downto 0
      invariant ids == Having(ps[k..], m)
    {
      assert ps[k..] == [ps[k]] + ps[k + 1..];
      if Marked(ps[k], m) { ids := [ps[k].id] + ids; }
    }
    assert ps[0..] == ps;
  }

  method CollectUnprotected(ps: seq<Package>, protected: set<string>) returns (ids: seq<string>)
    ensures ids == Unprotected(ps, protected)
  {
    ids := [];
    for k := |ps| downto 0
      invariant ids == Unprotected(ps[k..], protected)
    {
      assert ps[k..] == [ps[k]] + ps[k + 1..];
      if ps[k].id !in protected { ids := ids + [ps[k].id]; }
    }
    assert ps[0..] == ps;
  }

  method CollectDaily(ordered: seq<Package>, today: int, slots: nat) returns (daily: seq<string>)
    ensures daily == DailyWinners(ordered, today, slots)
  {
    daily := [];
    for offset := 0 to slots
      invariant daily == DailyWinners(ordered, today, offset)
    {
      var winner := FirstFit(ordered, OnDay(today - offset));
      if winner.Some? { daily := daily + [winner.value]; }
    }
  }

  method CollectWeekly(ordered: seq<Package>, thisWeek: int, daily: seq<string>, slots: nat) returns (weekly: seq<string>)
    ensures weekly == WeeklyWinners(ordered, thisWeek, daily, slots)
  {
    weekly := [];
    for offset := 0 to slots
      invariant weekly == WeeklyWinners(ordered, thisWeek, daily, offset)
    {
      var winner := FirstFit(ordered, InWeek(thisWeek - offset, daily));
      if winner.Some? { weekly := weekly + [winner.value]; }
    }
  }

  /** The selection as the program runs it: slot by slot over the sorted list. */
  method Select(packages: seq<Package>, policy: Policy, reference: int) returns (r: Result<Plan, SelectError>)
    ensures r == PlanFor(packages, policy, reference)
  {
    var ordered := Sort(packages);
    var verified := Collect(ordered, Verified);
    if verified == [] { return Err(VerifiedFloorViolation); }
    var daily := CollectDaily(ordered, Day(reference), policy.dailySlots);
    var weekly := CollectWeekly(ordered, Week(reference), daily, policy.weeklySlots);
    var minimum := Ids(ordered[..Least(policy.minimum, |ordered|)]);
    var pinned := Collect(ordered, Pinned);
    var held := Collect(ordered, Held);
    var protected := Elements(daily) + Elements(weekly) + Elements(minimum) + Elements(pinned) + Elements(held) + {verified[0]};
    assert protected == Protected(ordered, policy, reference, verified[0]);
    var candidates := CollectUnprotected(ordered, protected);
    var total, gone := SumBytes(ordered, Elements(candidates));
    var post: int := total - gone;
    r := Ok(Plan(packages, daily, weekly, minimum, pinned, held, verified[0], protected, candidates,
                 BudgetStatus(total, post, policy.budget), total, post));
  }
}
