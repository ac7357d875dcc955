/**
 Episode identities (backend/app/modules/normalizer/core.py and the range grammar of
 fingerprint.py): ranges are printed, and the printed text is read again. Regular
 expressions are matched as the grammars they are; what the title patterns capture is a
 parameter. Digits are ASCII.
 */
module Episode {
  import opened Wrappers
  import opened Decimal

  datatype Kind = SingleEpisode | EpisodeRange | Full | Unknown

  datatype Source = FromMetadata | FromTitle | FromNowhere

  datatype Normalized = Normalized(kind: Kind, source: Source, season: Option<nat>, episode: Option<nat>, range: string)

  const NOTHING_KNOWN := Normalized(Unknown, FromNowhere, None, None, "unknown")

  // ---------------------------------------------------------------- texts

  /** Where c first occurs, or the length. */
  function IndexOf(s: string, c: char): (i: nat)
    ensures i <= |s| && (i < |s| ==> s[i] == c) && forall k :: 0 <= k < i ==> s[k] != c
  {
    if s == [] || s[0] == c then 0 else 1 + IndexOf(s[1..], c)
  }

  lemma IndexOfFirst(a: string, c: char, b: string)
    requires forall k :: 0 <= k < |a| ==> a[k] != c
    ensures IndexOf(a + [c] + b, c) == |a|
  {
    var s := a + [c] + b;
    assert s[|a|] == c;
    assert forall k :: 0 <= k < |a| ==> s[k] == a[k];
  }

  lemma IndexOfNone(a: string, c: char)
    requires forall k :: 0 <= k < |a| ==> a[k] != c
    ensures IndexOf(a, c) == |a|
  {
  }

  /** A number, or two of them with a dash between. */
  datatype Span = Span(first: nat, last: Option<nat>)

  function PrintSpan(sp: Span): string {
    Print(sp.first) + (if sp.last.Some? then "-" + Print(sp.last.value) else "")
  }

  /** Digits, read; the empty text is no number. */
  function ReadDigits(s: string): Option<nat> {
    if s == [] || !AllDigits(s) then None else Some(Read(s))
  }

  /** The span a text spells, leading zeros allowed. */
  function ReadSpan(s: string): Option<Span> {
    var i := IndexOf(s, '-');
    var first := ReadDigits(s[..i]);
    if first.None? then None
    else if i == |s| then Some(Span(first.value, None))
    else
      var last := ReadDigits(s[i + 1..]);
      if last.None? then None else Some(Span(first.value, last))
  }

  lemma NoDash(s: string)
    requires AllDigits(s)
    ensures forall k :: 0 <= k < |s| ==> s[k] != '-' && s[k] != 'e' && s[k] != ':'
  {
  }

  lemma SpanReads(sp: Span)
    ensures ReadSpan(PrintSpan(sp)) == Some(sp)
  {
    var a := Print(sp.first);
    PrintReads(sp.first);
    NoDash(a);
    if sp.last.Some? {
      var b := Print(sp.last.value);
      PrintReads(sp.last.value);
      assert PrintSpan(sp) == a + ['-'] + b;
      IndexOfFirst(a, '-', b);
      assert PrintSpan(sp)[..|a|] == a && PrintSpan(sp)[|a| + 1..] == b;
    } else {
      assert PrintSpan(sp) == a;
      IndexOfNone(a, '-');
      assert a[..|a|] == a;
    }
  }

  /** Printing an identity: with a season sDDeN[-M], without one epN[-M]. */
  function PrintRange(season: Option<nat>, sp: Span): string {
    match season
    case None => "ep" + PrintSpan(sp)
    case Some(n) => "s" + PrintPadded(n) + "e" + PrintSpan(sp)
  }

  // ---------------------------------------------------------------- the validator

  /** Digits that do not start with a zero. */
  predicate IsCount(s: string) {
    s != [] && AllDigits(s) && s[0] != '0'
  }

  /** N or N-M with M at least N. */
  predicate AcceptsSpan(s: string) {
    var i := IndexOf(s, '-');
    && IsCount(s[..i])
    && (i < |s| ==> IsCount(s[i + 1..]) && Read(s[i + 1..]) >= Read(s[..i]))
  }

  /** The canonical texts: all, unknown, epN[-M], and sDDeN[-M] with a season of exactly two digits. */
  predicate IsCanonical(value: string) {
    || value == "all" || value == "unknown"
    || (|value| > 2 && value[..2] == "ep" && AcceptsSpan(value[2..]))
    || (|value| > 4 && value[0] == 's' && AllDigits(value[1..3]) && Read(value[1..3]) > 0 && value[3] == 'e' && AcceptsSpan(value[4..]))
  }

  datatype RangeError = InvalidCanonicalRange(value: string)

  function ValidateEpisodeRange(value: string): Result<string, RangeError> {
    if IsCanonical(value) then Ok(value) else Err(InvalidCanonicalRange(value))
  }

  // ---------------------------------------------------------------- reading metadata ranges

  function Positive(n: nat): Option<nat> {
    if n > 0 then Some(n) else None
  }

  /** An identity from a span, unless its first number is zero or its end lies before it. */
  function Spanned(source: Source, season: Option<nat>, sp: Span): Option<Normalized> {
    if sp.first == 0 then None
    else
      match sp.last
      case None => Some(Normalized(SingleEpisode, source, season, Some(sp.first), PrintRange(season, sp)))
      case Some(last) =>
        // an end of zero reads as no end at all
        if last == 0 then Some(Normalized(SingleEpisode, source, season, Some(sp.first), PrintRange(season, Span(sp.first, None))))
        else if last < sp.first then None
        else Some(Normalized(EpisodeRange, source, season, None, PrintRange(season, sp)))
  }

  /** The season and span of sNeM[-K]. */
  function ReadSeason(value: string): Option<(nat, Span)> {
    if value == [] || value[0] != 's' then None
    else
      var rest := value[1..];
      var i := IndexOf(rest, 'e');
      if i == |rest| then None
      else
        var season, sp := ReadDigits(rest[..i]), ReadSpan(rest[i + 1..]);
        if season.None? || sp.None? then None else Some((season.value, sp.value))
  }

  /** Read an explicit range, already folded to lower case and plain dashes. */
  function CanonicalEpisode(value: string, source: Source): Option<Normalized> {
    if value == "all" || value == "full" then Some(Normalized(Full, source, None, None, "all"))
    else if value == "unknown" then None
    else
      var seasoned := ReadSeason(value);
      if seasoned.Some? then
        (if seasoned.value.0 == 0 then None else Spanned(source, Some(seasoned.value.0), seasoned.value.1))
      else if |value| < 2 || value[..2] != "ep" then None
      else
        var sp := ReadSpan(value[2..]);
        if sp.None? then None else Spanned(source, None, sp.value)
  }

  // ---------------------------------------------------------------- numerals

  /** The ten digit characters of Chinese numerals. */
  function NumeralDigit(c: char): Option<nat> {
    if c == '\U{96f6}' then Some(0)
    else if c == '\U{4e00}' then Some(1)
    else if c == '\U{4e8c}' then Some(2)
    else if c == '\U{4e09}' then Some(3)
    else if c == '\U{56db}' then Some(4)
    else if c == '\U{4e94}' then Some(5)
    else if c == '\U{516d}' then Some(6)
    else if c == '\U{4e03}' then Some(7)
    else if c == '\U{516b}' then Some(8)
    else if c == '\U{4e5d}' then Some(9)
    else None
  }

  const TEN: char := '\U{5341}'
  const HUNDRED: char := '\U{767e}'
  const THOUSAND: char := '\U{5343}'
  const ZERO: char := '\U{96f6}'

  function NumeralUnit(c: char): Option<nat> {
    if c == TEN then Some(10) else if c == HUNDRED then Some(100) else if c == THOUSAND then Some(1000) else None
  }

  /** Reading on with this much already counted and this digit waiting for its unit. */
  function Numeral(s: string, total: nat, current: nat): Option<nat> {
    if s == [] then Some(total + current)
    else if NumeralDigit(s[0]).Some? then Numeral(s[1..], total, NumeralDigit(s[0]).value)
    else if NumeralUnit(s[0]).Some? then
      Numeral(s[1..], total + (if current == 0 then 1 else current) * NumeralUnit(s[0]).value, 0)
    else None
  }

  function PositiveInt(s: string): Option<nat> {
    var n := if s != [] && AllDigits(s) then Some(Read(s)) else Numeral(s, 0, 0);
    if n.None? then None else Positive(n.value)
  }

  /** The reading as a loop over the characters. */
  method ToPositiveInt(s: string) returns (r: Option<nat>)
    ensures r == PositiveInt(s)
  {
    if s != [] && AllDigits(s) { return Positive(Read(s)); }
    var total: nat, current: nat := 0, 0;
    for k := 0 to |s|
      invariant Numeral(s, 0, 0) == Numeral(s[k..], total, current)
    {
      assert s[k..][1..] == s[k + 1..];
      var digit, unit := NumeralDigit(s[k]), NumeralUnit(s[k]);
      if digit.Some? {
        current := digit.value;
      } else if unit.Some? {
        total := total + (if current == 0 then 1 else current) * unit.value;
        current := 0;
      } else {
        return None;
      }
    }
    r := Positive(total + current);
  }

  function DigitFor(d: nat): (c: char)
    requires d < 10
    ensures NumeralDigit(c) == Some(d)
  {
    if d == 0 then '\U{96f6}' else if d == 1 then '\U{4e00}' else if d == 2 then '\U{4e8c}' else if d == 3 then '\U{4e09}'
    else if d == 4 then '\U{56db}' else if d == 5 then '\U{4e94}' else if d == 6 then '\U{516d}' else if d == 7 then '\U{4e03}'
    else if d == 8 then '\U{516b}' else '\U{4e5d}'
  }

  /** One place of a numeral: its digit and unit; a zero is written only when something written stands on both sides. */
  function Place(d: nat, unit: char, preceded: bool, followed: bool): string
    requires d < 10
  {
    if d > 0 then [DigitFor(d), unit] else if preceded && followed then [ZERO] else []
  }

  function UnitPart(o: nat): string
    requires o < 10
  {
    if o > 0 then [DigitFor(o)] else []
  }

  function TensPart(t: nat, o: nat, preceded: bool): string
    requires t < 10 && o < 10
  {
    Place(t, TEN, preceded, o > 0) + UnitPart(o)
  }

  function HundredsPart(h: nat, t: nat, o: nat, preceded: bool): string
    requires h < 10 && t < 10 && o < 10
  {
    Place(h, HUNDRED, preceded, t > 0 || o > 0) + TensPart(t, o, preceded || h > 0)
  }

  /** The numeral of a number below ten thousand, with a digit before every unit. */
  function Spelled(th: nat, h: nat, t: nat, o: nat): string
    requires th < 10 && h < 10 && t < 10 && o < 10
  {
    Place(th, THOUSAND, false, false) + HundredsPart(h, t, o, th > 0)
  }

  /** From ten to nineteen the usual numeral starts with the bare ten. */
  function Usual(th: nat, h: nat, t: nat, o: nat): string
    requires th < 10 && h < 10 && t < 10 && o < 10
  {
    if th == 0 && h == 0 && t == 1 then [TEN] + UnitPart(o) else Spelled(th, h, t, o)
  }

  lemma PlaceReads(d: nat, unit: char, value: nat, preceded: bool, followed: bool, rest: string, total: nat)
    requires d < 10 && NumeralUnit(unit) == Some(value) && NumeralDigit(unit).None?
    ensures Numeral(Place(d, unit, preceded, followed) + rest, total, 0) == Numeral(rest, total + d * value, 0)
  {
    var s := Place(d, unit, preceded, followed) + rest;
    if d > 0 {
      assert s[0] == DigitFor(d) && s[1..] == [unit] + rest;
      assert s[1..][0] == unit && s[1..][1..] == rest;
      assert Numeral(s[1..], total, d) == Numeral(rest, total + d * value, 0);
    } else if preceded && followed {
      assert s[0] == ZERO && s[1..] == rest;
    } else {
      assert s == rest;
    }
  }

  lemma UnitReads(o: nat, total: nat)
    requires o < 10
    ensures Numeral(UnitPart(o), total, 0) == Some(total + o)
  {
  }

  lemma TensRead(t: nat, o: nat, preceded: bool, total: nat)
    requires t < 10 && o < 10
    ensures Numeral(TensPart(t, o, preceded), total, 0) == Some(total + 10 * t + o)
  {
    PlaceReads(t, TEN, 10, preceded, o > 0, UnitPart(o), total);
    UnitReads(o, total + t * 10);
  }

  lemma HundredsRead(h: nat, t: nat, o: nat, preceded: bool, total: nat)
    requires h < 10 && t < 10 && o < 10
    ensures Numeral(HundredsPart(h, t, o, preceded), total, 0) == Some(total + 100 * h + 10 * t + o)
  {
    PlaceReads(h, HUNDRED, 100, preceded, t > 0 || o > 0, TensPart(t, o, preceded || h > 0), total);
    TensRead(t, o, preceded || h > 0, total + h * 100);
  }

  /** A bare ten counts as one ten. */
  lemma BareTenReads(o: nat)
    requires o < 10
    ensures PositiveInt([TEN] + UnitPart(o)) == Some(10 + o)
  {
    var s := [TEN] + UnitPart(o);
    assert s[0] == TEN && s[1..] == UnitPart(o);
    UnitReads(o, 10);
    assert !IsDigit(TEN);
  }

  /** The loop reads every usual numeral as the number it spells, also when ten to nineteen are written with a leading one. */
  lemma NumeralReads(th: nat, h: nat, t: nat, o: nat)
    requires th < 10 && h < 10 && t < 10 && o < 10 && th + h + t + o > 0
    ensures PositiveInt(Spelled(th, h, t, o)) == Some(1000 * th + 100 * h + 10 * t + o)
    ensures PositiveInt(Usual(th, h, t, o)) == Some(1000 * th + 100 * h + 10 * t + o)
  {
    BareTenReads(o);
    PlaceReads(th, THOUSAND, 1000, false, false, HundredsPart(h, t, o, th > 0), 0);
    HundredsRead(h, t, o, th > 0, th * 1000);
    SpelledIsNotDigits(th, h, t, o);
  }

  lemma SpelledIsNotDigits(th: nat, h: nat, t: nat, o: nat)
    requires th < 10 && h < 10 && t < 10 && o < 10 && th + h + t + o > 0
    ensures Spelled(th, h, t, o) != [] && !AllDigits(Spelled(th, h, t, o))
  {
    var s := Spelled(th, h, t, o);
    var d := if th > 0 then th else if h > 0 then h else if t > 0 then t else o;
    assert s[0] == DigitFor(d);
    assert !IsDigit(DigitFor(d));
  }

  // ---------------------------------------------------------------- the normalizer

  /** Metadata as parsed; an empty range is no range. */
  datatype Metadata = Metadata(range: string, episode: Option<int>, season: Option<int>)

  /** What each pattern captures in the prepared title. */
  datatype TitleMatches = TitleMatches(
    seasonEpisode: Option<(nat, nat, Option<nat>)>,
    season: Option<string>,
    updateTo: Option<nat>,
    range: Option<(string, string)>,
    episode: Option<string>,
    english: Option<(nat, Option<nat>)>,
    full: bool,
    trailing: Option<nat>)

  function PositiveOf(n: Option<int>): Option<nat> {
    if n.Some? && n.value > 0 then Some(n.value) else None
  }

  function Single(source: Source, season: Option<nat>, episode: nat): Normalized {
    Normalized(SingleEpisode, source, season, Some(episode), PrintRange(season, Span(episode, None)))
  }

  function Ranged(source: Source, season: Option<nat>, first: nat, last: nat): Normalized {
    Normalized(EpisodeRange, source, season, None, PrintRange(season, Span(first, Some(last))))
  }

  function EpisodeFromMetadata(m: Metadata): Option<Normalized> {
    var explicit := if m.range != "" then CanonicalEpisode(m.range, FromMetadata) else None;
    if explicit.Some? then explicit
    else if PositiveOf(m.episode).None? then None
    else Some(Single(FromMetadata, PositiveOf(m.season), PositiveOf(m.episode).value))
  }

  function EpisodeFromTitle(t: TitleMatches): Normalized {
    var se := t.seasonEpisode;
    if se.Some? && se.value.0 > 0 && se.value.1 > 0 && (se.value.2.None? || se.value.2.value >= se.value.1) then
      (if se.value.2.Some? then Ranged(FromTitle, Some(se.value.0), se.value.1, se.value.2.value)
       else Single(FromTitle, Some(se.value.0), se.value.1))
    else
      var season := if t.season.Some? then PositiveInt(t.season.value) else None;
      if t.updateTo.Some? && t.updateTo.value > 0 then Ranged(FromTitle, season, 1, t.updateTo.value)
      else EpisodeAfterUpdate(t, season)
  }

  function EpisodeAfterUpdate(t: TitleMatches, season: Option<nat>): Normalized {
    var first := if t.range.Some? then PositiveInt(t.range.value.0) else None;
    var last := if t.range.Some? then PositiveInt(t.range.value.1) else None;
    var single := if t.episode.Some? then PositiveInt(t.episode.value) else None;
    if first.Some? && last.Some? && last.value >= first.value then Ranged(FromTitle, season, first.value, last.value)
    else if single.Some? then Single(FromTitle, season, single.value)
    else if t.english.Some? && t.english.value.0 > 0 then
      var n, end := t.english.value.0, t.english.value.1;
      (if end.None? then Single(FromTitle, season, n)
       else if end.value >= n then Ranged(FromTitle, season, n, end.value)
       else NOTHING_KNOWN)
    else if t.full then Normalized(Full, FromTitle, None, None, "all")
    else if t.trailing.Some? && t.trailing.value > 0 then Single(FromTitle, None, t.trailing.value)
    else NOTHING_KNOWN
  }

  /** Metadata takes precedence over the title. */
  function NormalizeEpisode(m: Option<Metadata>, t: TitleMatches): Normalized {
    var known := if m.Some? then EpisodeFromMetadata(m.value) else None;
    if known.Some? then known.value else EpisodeFromTitle(t)
  }

  // ---------------------------------------------------------------- printing and reading again

  /** An identity whose range is the print of what it says. */
  ghost predicate WellFormed(e: Normalized) {
    && (e.season.Some? ==> e.season.value > 0)
    && match e.kind
       case Unknown => e == NOTHING_KNOWN
       case Full => e.season.None? && e.episode.None? && e.range == "all"
       case SingleEpisode => e.episode.Some? && e.episode.value > 0 && e.range == PrintRange(e.season, Span(e.episode.value, None))
       case EpisodeRange =>
         e.episode.None? && exists first: nat, last: nat :: PrintsRange(e, first, last)
  }

  predicate PrintsRange(e: Normalized, first: nat, last: nat) {
    0 < first <= last && e.range == PrintRange(e.season, Span(first, Some(last)))
  }

  lemma RangedIsWellFormed(source: Source, season: Option<nat>, first: nat, last: nat)
    requires 0 < first <= last && (season.Some? ==> season.value > 0)
    ensures WellFormed(Ranged(source, season, first, last))
  {
    assert PrintsRange(Ranged(source, season, first, last), first, last);
  }

  lemma CanonicalIsWellFormed(value: string, source: Source)
    ensures CanonicalEpisode(value, source).Some? ==> WellFormed(CanonicalEpisode(value, source).value)
  {
    var seasoned := ReadSeason(value);
    if value == "all" || value == "full" || value == "unknown" {
    } else if seasoned.Some? {
      if seasoned.value.0 > 0 { SpannedIsWellFormed(source, Some(seasoned.value.0), seasoned.value.1); }
    } else if |value| >= 2 && value[..2] == "ep" && ReadSpan(value[2..]).Some? {
      SpannedIsWellFormed(source, None, ReadSpan(value[2..]).value);
    }
  }

  lemma SpannedIsWellFormed(source: Source, season: Option<nat>, sp: Span)
    requires season.Some? ==> season.value > 0
    ensures Spanned(source, season, sp).Some? ==> WellFormed(Spanned(source, season, sp).value)
  {
    var r := Spanned(source, season, sp);
    if r.Some? && r.value.kind == EpisodeRange { assert PrintsRange(r.value, sp.first, sp.last.value); }
  }

  lemma AfterUpdateIsWellFormed(t: TitleMatches, season: Option<nat>)
    requires season.Some? ==> season.value > 0
    ensures WellFormed(EpisodeAfterUpdate(t, season))
  {
    var e := EpisodeAfterUpdate(t, season);
    if e.kind == EpisodeRange {
      if t.range.Some? && PositiveInt(t.range.value.0).Some? && PositiveInt(t.range.value.1).Some?
         && PositiveInt(t.range.value.1).value >= PositiveInt(t.range.value.0).value {
        RangedIsWellFormed(FromTitle, season, PositiveInt(t.range.value.0).value, PositiveInt(t.range.value.1).value);
      } else {
        RangedIsWellFormed(FromTitle, season, t.english.value.0, t.english.value.1.value);
      }
    }
  }

  lemma TitleIsWellFormed(t: TitleMatches)
    ensures WellFormed(EpisodeFromTitle(t))
  {
    var se := t.seasonEpisode;
    var season := if t.season.Some? then PositiveInt(t.season.value) else None;
    AfterUpdateIsWellFormed(t, season);
    if se.Some? && se.value.0 > 0 && se.value.1 > 0 && se.value.2.Some? && se.value.2.value >= se.value.1 {
      RangedIsWellFormed(FromTitle, Some(se.value.0), se.value.1, se.value.2.value);
    }
    if t.updateTo.Some? && t.updateTo.value > 0 { RangedIsWellFormed(FromTitle, season, 1, t.updateTo.value); }
  }

  lemma NormalizedIsWellFormed(m: Option<Metadata>, t: TitleMatches)
    ensures WellFormed(NormalizeEpisode(m, t))
  {
    TitleIsWellFormed(t);
    if m.Some? { CanonicalIsWellFormed(m.value.range, FromMetadata); }
  }

  lemma SeasonReads(n: nat, sp: Span)
    ensures ReadSeason(PrintRange(Some(n), sp)) == Some((n, sp))
  {
    var s, d, p := PrintRange(Some(n), sp), PrintPadded(n), PrintSpan(sp);
    PaddedReads(n);
    NoDash(d);
    assert s[1..] == d + ['e'] + p;
    IndexOfFirst(d, 'e', p);
    assert s[1..][..|d|] == d && s[1..][|d| + 1..] == p;
    SpanReads(sp);
  }

  lemma PlainReads(sp: Span)
    ensures var s := PrintRange(None, sp); ReadSeason(s).None? && |s| > 2 && s[..2] == "ep" && ReadSpan(s[2..]) == Some(sp)
  {
    var s := PrintRange(None, sp);
    SpanReads(sp);
    assert s[2..] == PrintSpan(sp);
  }

  /** A printed identity reads as its season and span. */
  lemma PrintedReads(season: Option<nat>, sp: Span, source: Source)
    requires season.Some? ==> season.value > 0
    ensures CanonicalEpisode(PrintRange(season, sp), source) == Spanned(source, season, sp)
  {
    var s := PrintRange(season, sp);
    if season.Some? { SeasonReads(season.value, sp); } else { PlainReads(sp); }
    assert s[0] == 's' || s[1] == 'p';
    assert s != "all" && s != "full" && s != "unknown";
  }

  /** Whatever the normalizer says about an episode, its printed range reads as the same identity. */
  lemma RangeRoundTrips(m: Option<Metadata>, t: TitleMatches)
    requires NormalizeEpisode(m, t).kind != Unknown
    ensures var e := NormalizeEpisode(m, t); CanonicalEpisode(e.range, e.source) == Some(e)
  {
    var e := NormalizeEpisode(m, t);
    NormalizedIsWellFormed(m, t);
    if e.kind == SingleEpisode {
      PrintedReads(e.season, Span(e.episode.value, None), e.source);
    } else if e.kind == EpisodeRange {
      var first: nat, last: nat :| PrintsRange(e, first, last);
      PrintedReads(e.season, Span(first, Some(last)), e.source);
    }
  }

  lemma SpanAccepted(sp: Span)
    requires sp.first > 0 && (sp.last.Some? ==> sp.last.value >= sp.first)
    ensures AcceptsSpan(PrintSpan(sp))
  {
    var a := Print(sp.first);
    PrintReads(sp.first);
    NoDash(a);
    if sp.last.Some? {
      var b := Print(sp.last.value);
      PrintReads(sp.last.value);
      assert PrintSpan(sp) == a + ['-'] + b;
      IndexOfFirst(a, '-', b);
      assert PrintSpan(sp)[..|a|] == a && PrintSpan(sp)[|a| + 1..] == b;
    } else {
      assert PrintSpan(sp) == a;
      IndexOfNone(a, '-');
      assert a[..|a|] == a;
    }
  }

  lemma PrintedAccepted(season: Option<nat>, sp: Span)
    requires season.Some? ==> season.value > 0
    requires sp.first > 0 && (sp.last.Some? ==> sp.last.value >= sp.first)
    ensures IsCanonical(PrintRange(season, sp)) <==> season.None? || season.value <= 99
  {
    SpanAccepted(sp);
    if season.None? {
      assert PrintRange(season, sp)[..2] == "ep" && PrintRange(season, sp)[2..] == PrintSpan(sp);
    } else {
      SeasonAccepted(season.value, sp);
    }
  }

  lemma SeasonAccepted(n: nat, sp: Span)
    requires n > 0 && AcceptsSpan(PrintSpan(sp))
    ensures IsCanonical(PrintRange(Some(n), sp)) <==> n <= 99
  {
    var s, d, p := PrintRange(Some(n), sp), PrintPadded(n), PrintSpan(sp);
    PaddedReads(n);
    assert s == ['s'] + d + ['e'] + p;
    assert s[0] == 's' && s[1..][..|d|] == d && s[1 + |d|] == 'e' && |s| == 2 + |d| + |p|;
    assert s != "all" && s != "unknown" && s[..2] != "ep";
    if |d| == 2 {
      assert s[1..3] == d && s[4..] == p;
    } else {
      assert s[3] == d[2];
      assert IsDigit(s[3]);
    }
  }

  /** The validator accepts what the normalizer prints exactly when the season is absent or has two digits. */
  lemma AcceptedExactly(m: Option<Metadata>, t: TitleMatches)
    ensures var e := NormalizeEpisode(m, t);
            ValidateEpisodeRange(e.range) == Ok(e.range) <==> e.season.None? || e.season.value <= 99
  {
    var e := NormalizeEpisode(m, t);
    NormalizedIsWellFormed(m, t);
    if e.kind == SingleEpisode {
      PrintedAccepted(e.season, Span(e.episode.value, None));
    } else if e.kind == EpisodeRange {
      var first: nat, last: nat :| PrintsRange(e, first, last);
      PrintedAccepted(e.season, Span(first, Some(last)));
    }
  }

  /** Such a season comes from metadata, and its range is refused. */
  lemma SeasonLimitReached(t: TitleMatches)
    ensures var e := NormalizeEpisode(Some(Metadata("", Some(1), Some(100))), t);
            e.range == "s100e1" && ValidateEpisodeRange(e.range) == Err(InvalidCanonicalRange("s100e1"))
  {
    var m := Some(Metadata("", Some(1), Some(100)));
    AcceptedExactly(m, t);
    assert Print(100) == Print(10) + "0" && Print(10) == Print(1) + "0" && Print(1) == "1";
    assert PrintPadded(100) == "100" && PrintSpan(Span(1, None)) == "1" + "" == "1";
    assert PrintRange(Some(100), Span(1, None)) == "s" + "100" + "e" + "1" == "s100e1";
  }

  // ---------------------------------------------------------------- canonical texts are what they read as

  lemma CountPrints(s: string)
    requires IsCount(s)
    ensures ReadDigits(s) == Some(Read(s)) && Read(s) > 0 && Print(Read(s)) == s
  {
  }

  lemma AcceptedSpanPrints(s: string)
    requires AcceptsSpan(s)
    ensures ReadSpan(s).Some? && PrintSpan(ReadSpan(s).value) == s
    ensures var sp := ReadSpan(s).value; sp.first > 0 && (sp.last.Some? ==> sp.last.value >= sp.first)
  {
    var i := IndexOf(s, '-');
    CountPrints(s[..i]);
    if i < |s| {
      CountPrints(s[i + 1..]);
      assert s == s[..i] + "-" + s[i + 1..];
    } else {
      assert s == s[..i];
    }
  }

  lemma TwoDigitsPrint(s: string)
    requires |s| == 2 && AllDigits(s) && Read(s) > 0
    ensures PrintPadded(Read(s)) == s
  {
    assert s == [s[0], s[1]];
    assert s[..1] == [s[0]] && s[..1][..0] == [];
    assert Read(s[..1]) == DigitValue(s[0]);
    if s[0] != '0' {
      ReadPrints(s);
    } else {
      assert s == "0" + [s[1]];
      assert Print(DigitValue(s[1])) == [s[1]];
    }
  }

  lemma AcceptedSpanned(season: Option<nat>, sp: Span, source: Source)
    requires sp.first > 0 && (sp.last.Some? ==> sp.last.value >= sp.first)
    ensures Spanned(source, season, sp).Some? && Spanned(source, season, sp).value.range == PrintRange(season, sp)
  {
  }

  lemma PlainPrintsItself(value: string, source: Source)
    requires |value| > 2 && value[..2] == "ep" && AcceptsSpan(value[2..])
    ensures CanonicalEpisode(value, source).Some? && CanonicalEpisode(value, source).value.range == value
  {
    AcceptedSpanPrints(value[2..]);
    var sp := ReadSpan(value[2..]).value;
    assert value == PrintRange(None, sp);
    PrintedReads(None, sp, source);
    AcceptedSpanned(None, sp, source);
  }

  lemma SeasonPrintsItself(value: string, source: Source)
    requires |value| > 4 && value[0] == 's' && AllDigits(value[1..3]) && Read(value[1..3]) > 0 && value[3] == 'e'
    requires AcceptsSpan(value[4..])
    ensures CanonicalEpisode(value, source).Some? && CanonicalEpisode(value, source).value.range == value
  {
    AcceptedSpanPrints(value[4..]);
    TwoDigitsPrint(value[1..3]);
    var n, sp := Read(value[1..3]), ReadSpan(value[4..]).value;
    assert value == "s" + value[1..3] + "e" + value[4..];
    PrintedReads(Some(n), sp, source);
    AcceptedSpanned(Some(n), sp, source);
  }

  /** Every canonical text but unknown reads as an identity that prints that very text. */
  lemma CanonicalPrintsItself(value: string, source: Source)
    requires IsCanonical(value) && value != "unknown"
    ensures CanonicalEpisode(value, source).Some? && CanonicalEpisode(value, source).value.range == value
  {
    if value != "all" {
      if value[0] == 's' { SeasonPrintsItself(value, source); } else { PlainPrintsItself(value, source); }
    }
  }
}
