/**
 Resource keys and the content fingerprint (backend/app/modules/normalizer/fingerprint.py).
 The fingerprint hashes a concatenation without separators; the text nevertheless
 determines its four parts. SHA-256 is an ideal, injective function of the text.
 */
module Fingerprint {
  import opened Wrappers
  import opened Decimal
  import opened Episode

  datatype Digest = Sha256(text: string)

  /** Content types after trimming and case folding; anything unknown counts as other. */
  function NormalizeContentType(folded: string): (t: string)
    ensures IsContentType(t)
  {
    if IsContentType(folded) then folded else "other"
  }

  predicate IsContentType(t: string) {
    t == "drama" || t == "movie" || t == "variety" || t == "anime" || t == "other"
  }

  function YearToken(year: Option<int>): string {
    match year
    case None => "unknown"
    case Some(y) => if y < 0 then "-" + Print(-y) else Print(y)
  }

  function BuildWorkKey(contentType: string, title: string, year: Option<int>): string {
    NormalizeContentType(contentType) + ":" + title + ":" + YearToken(year)
  }

  function BuildResourceKey(contentType: string, title: string, range: string): Result<string, RangeError> {
    match ValidateEpisodeRange(range)
    case Err(e) => Err(e)
    case Ok(r) => Ok(NormalizeContentType(contentType) + ":" + title + ":" + r)
  }

  datatype KeyError = NotPositive

  /** Only a single episode has a key; a missing season counts as the first. */
  function BuildEpisodeKey(contentType: string, title: string, kind: Kind, season: Option<int>, episode: Option<int>)
    : Result<Option<string>, KeyError>
  {
    if kind != SingleEpisode then Ok(None)
    else if episode.None? || episode.value < 1 then Err(NotPositive)
    else
      var s := if season.Some? then season.value else 1;
      if s < 1 then Err(NotPositive)
      else Ok(Some(NormalizeContentType(contentType) + ":" + title + ":" + EpisodeToken(s, episode.value)))
  }

  function EpisodeToken(season: nat, episode: nat): string {
    "s" + PrintPadded(season) + ":e" + PrintPadded(episode)
  }

  function Payload(title: string, range: string, contentType: string, year: Option<int>): string {
    title + range + NormalizeContentType(contentType) + YearToken(year)
  }

  function BuildContentFingerprint(title: string, range: string, contentType: string, year: Option<int>): Result<Digest, RangeError> {
    match ValidateEpisodeRange(range)
    case Err(e) => Err(e)
    case Ok(r) => Ok(Sha256(Payload(title, r, contentType, year)))
  }

  // ---------------------------------------------------------------- splitting off an end

  datatype Class = YearChars | NotColon

  predicate In(k: Class, c: char) {
    match k
    case YearChars => IsDigit(c) || c == '-'
    case NotColon => c != ':'
  }

  predicate AllIn(k: Class, s: string) {
    forall i :: 0 <= i < |s| ==> In(k, s[i])
  }

  /** a ends outside the class. */
  predicate EndsOutside(k: Class, a: string) {
    a != [] && !In(k, a[|a| - 1])
  }

  /** The longest tail within a class is determined by the text. */
  lemma TailDetermined(k: Class, a: string, x: string, b: string, y: string)
    requires AllIn(k, x) && AllIn(k, y) && EndsOutside(k, a) && EndsOutside(k, b) && a + x == b + y
    ensures a == b && x == y
  {
    var s := a + x;
    TailNotLonger(k, a, x, b, y);
    TailNotLonger(k, b, y, a, x);
    assert s[..|a|] == a && s[|a|..] == x && (b + y)[..|b|] == b && (b + y)[|b|..] == y;
  }

  lemma TailNotLonger(k: Class, a: string, x: string, b: string, y: string)
    requires AllIn(k, x) && EndsOutside(k, b) && a + x == b + y
    ensures |x| <= |y|
  {
    var s := a + x;
    assert forall i :: |a| <= i < |s| ==> s[i] == x[i - |a|];
    assert s[|b| - 1] == b[|b| - 1];
  }

  /** Ends of equal length are equal, and so is what precedes them. */
  lemma SameLengthSplit(a: string, x: string, b: string, y: string)
    requires a + x == b + y && |x| == |y|
    ensures a == b && x == y
  {
    assert (a + x)[..|a|] == a && (a + x)[|a|..] == x && (b + y)[..|b|] == b && (b + y)[|b|..] == y;
  }

  // ---------------------------------------------------------------- year, type and range from the end

  lemma YearTokenChars(year: Option<int>)
    ensures year.Some? ==> AllIn(YearChars, YearToken(year)) && YearToken(year) != [] && IsDigit(YearToken(year)[|YearToken(year)| - 1])
    ensures AllIn(NotColon, YearToken(year))
  {
    if year.Some? {
      var n: nat := if year.value < 0 then -year.value else year.value;
      PrintReads(n);
      assert YearToken(year)[|YearToken(year)| - 1] == Print(n)[|Print(n)| - 1];
    }
  }

  lemma YearTokenInjective(y: Option<int>, z: Option<int>)
    requires YearToken(y) == YearToken(z)
    ensures y == z
  {
    YearTokenChars(y);
    YearTokenChars(z);
    if y.Some? && z.Some? {
      var m: nat := if y.value < 0 then -y.value else y.value;
      var n: nat := if z.value < 0 then -z.value else z.value;
      PrintReads(m);
      PrintReads(n);
      assert y.value < 0 ==> YearToken(y)[0] == '-' && YearToken(y)[1..] == Print(m);
      assert z.value < 0 ==> YearToken(z)[0] == '-' && YearToken(z)[1..] == Print(n);
      assert y.value < 0 <==> z.value < 0;
      PrintInjective(m, n);
    } else {
      assert "unknown"[6] == 'n';
    }
  }

  /** The year is the trailing digits, or the trailing word, after the last letter of the type. */
  lemma YearFromEnd(a: string, y: Option<int>, b: string, z: Option<int>)
    requires EndsOutside(YearChars, a) && EndsOutside(YearChars, b)
    requires a + YearToken(y) == b + YearToken(z)
    ensures a == b && y == z
  {
    var u, v := YearToken(y), YearToken(z);
    YearTokenChars(y);
    YearTokenChars(z);
    assert (a + u)[|a + u| - 1] == u[|u| - 1] && (b + v)[|b + v| - 1] == v[|v| - 1];
    assert "unknown"[6] == 'n';
    if y.Some? {
      TailDetermined(YearChars, a, u, b, v);
    } else {
      SameLengthSplit(a, u, b, v);
    }
    YearTokenInjective(y, z);
  }

  lemma TypeFromEnd(a: string, t: string, b: string, u: string)
    requires IsContentType(t) && IsContentType(u) && a + t == b + u
    ensures a == b && t == u
  {
    assert (a + t)[|a + t| - 1] == t[|t| - 1] && (b + u)[|b + u| - 1] == u[|u| - 1];
    SameLengthSplit(a, t, b, u);
  }

  lemma SpanChars(s: string)
    requires AcceptsSpan(s)
    ensures AllIn(YearChars, s)
  {
  }

  /** The letters of a canonical text stand only where its form puts them. */
  lemma CanonicalLetters(r: string)
    requires IsCanonical(r)
    ensures r == "all" || r == "unknown"
            || (|r| > 2 && r[0] == 'e' && r[1] == 'p' && forall k :: 2 <= k < |r| ==> In(YearChars, r[k]))
            || (|r| > 4 && r[0] == 's' && r[3] == 'e' && forall k :: 0 < k < |r| && k != 3 ==> In(YearChars, r[k]))
  {
    if r != "all" && r != "unknown" {
      if |r| > 2 && r[..2] == "ep" && AcceptsSpan(r[2..]) {
        SpanChars(r[2..]);
        assert r[0] == r[..2][0] && r[1] == r[..2][1];
        forall k | 2 <= k < |r| ensures In(YearChars, r[k]) { assert r[2..][k - 2] == r[k]; }
      } else {
        SpanChars(r[4..]);
        forall k | 0 < k < |r| && k != 3 ensures In(YearChars, r[k]) {
          if k < 3 { assert r[1..3][k - 1] == r[k]; } else { assert r[4..][k - 4] == r[k]; }
        }
      }
    }
  }

  /** No canonical text is a proper end of another. */
  lemma CanonicalSuffixFree(q: string, r: string)
    requires IsCanonical(q) && IsCanonical(r) && |q| < |r|
    ensures r[|r| - |q|..] != q
  {
    var n := |r| - |q|;
    CanonicalLetters(q);
    CanonicalLetters(r);
    assert r[n..][0] == r[n];
    if n + 1 < |r| { assert r[n..][1] == r[n + 1]; }
  }

  lemma RangeFromEnd(a: string, q: string, b: string, r: string)
    requires IsCanonical(q) && IsCanonical(r) && a + q == b + r
    ensures a == b && q == r
  {
    if |q| < |r| { ShorterIsSuffix(a, q, b, r); CanonicalSuffixFree(q, r); }
    if |r| < |q| { ShorterIsSuffix(b, r, a, q); CanonicalSuffixFree(r, q); }
    SameLengthSplit(a, q, b, r);
  }

  lemma ShorterIsSuffix(a: string, q: string, b: string, r: string)
    requires a + q == b + r && |q| < |r|
    ensures r[|r| - |q|..] == q
  {
    var s := a + q;
    assert s[|a|..] == q;
    assert (b + r)[|a|..] == r[|a| - |b|..];
  }

  lemma TypeEndsInLetter(a: string, t: string)
    requires IsContentType(t)
    ensures EndsOutside(YearChars, a + t)
  {
  }

  /** The separator-free text is uniquely decodable: it determines title, range, type and year. */
  lemma PayloadDecodable(a: string, q: string, t: string, y: Option<int>, b: string, r: string, u: string, z: Option<int>)
    requires IsCanonical(q) && IsCanonical(r) && Payload(a, q, t, y) == Payload(b, r, u, z)
    ensures a == b && q == r && NormalizeContentType(t) == NormalizeContentType(u) && y == z
  {
    var k, l := NormalizeContentType(t), NormalizeContentType(u);
    TypeEndsInLetter(a + q, k);
    TypeEndsInLetter(b + r, l);
    YearFromEnd(a + q + k, y, b + r + l, z);
    TypeFromEnd(a + q, k, b + r, l);
    RangeFromEnd(a, q, b, r);
  }

  /** Two resources share a fingerprint exactly when they agree in title, range, type and year. */
  lemma FingerprintsAgreeExactly(a: string, q: string, t: string, y: Option<int>, b: string, r: string, u: string, z: Option<int>)
    requires BuildContentFingerprint(a, q, t, y).Ok? && BuildContentFingerprint(b, r, u, z).Ok?
    ensures BuildContentFingerprint(a, q, t, y) == BuildContentFingerprint(b, r, u, z)
            <==> a == b && q == r && NormalizeContentType(t) == NormalizeContentType(u) && y == z
  {
    if BuildContentFingerprint(a, q, t, y) == BuildContentFingerprint(b, r, u, z) { PayloadDecodable(a, q, t, y, b, r, u, z); }
  }

  // ---------------------------------------------------------------- keys with colons

  lemma TypeFromFront(t: string, a: string, u: string, b: string)
    requires IsContentType(t) && IsContentType(u) && t + ":" + a == u + ":" + b
    ensures t == u && a == b
  {
    var s := t + ":" + a;
    assert s[..|t|] == t && s[|t|] == ':' && s == u + ":" + b && s[..|u|] == u && s[|u|] == ':';
    assert forall i :: 0 <= i < |t| ==> s[i] == t[i] != ':';
    assert forall i :: 0 <= i < |u| ==> s[i] == u[i] != ':';
    assert |t| == |u|;
    assert s[|t| + 1..] == a && (u + ":" + b)[|u| + 1..] == b;
  }

  lemma LastPart(a: string, x: string, b: string, y: string)
    requires AllIn(NotColon, x) && AllIn(NotColon, y) && a + ":" + x == b + ":" + y
    ensures a == b && x == y
  {
    assert EndsOutside(NotColon, a + ":") && EndsOutside(NotColon, b + ":");
    TailDetermined(NotColon, a + ":", x, b + ":", y);
    SameLengthSplit(a, ":", b, ":");
  }

  lemma Regroup(a: string, b: string, c: string)
    ensures a + ":" + b + ":" + c == a + ":" + (b + ":" + c)
    ensures a + ":" + b + ":" + c == (a + ":" + b) + ":" + c
  {
  }

  /** Work keys are injective, whatever colons the titles contain. */
  lemma WorkKeyInjective(t: string, a: string, y: Option<int>, u: string, b: string, z: Option<int>)
    requires BuildWorkKey(t, a, y) == BuildWorkKey(u, b, z)
    ensures NormalizeContentType(t) == NormalizeContentType(u) && a == b && y == z
  {
    var k, l := NormalizeContentType(t), NormalizeContentType(u);
    Regroup(k, a, YearToken(y));
    Regroup(l, b, YearToken(z));
    TypeFromFront(k, a + ":" + YearToken(y), l, b + ":" + YearToken(z));
    YearTokenChars(y);
    YearTokenChars(z);
    LastPart(a, YearToken(y), b, YearToken(z));
    YearTokenInjective(y, z);
  }

  lemma CanonicalHasNoColon(r: string)
    requires IsCanonical(r)
    ensures AllIn(NotColon, r)
  {
    CanonicalLetters(r);
  }

  /** So are resource keys. */
  lemma ResourceKeyInjective(t: string, a: string, q: string, u: string, b: string, r: string)
    requires BuildResourceKey(t, a, q).Ok? && BuildResourceKey(t, a, q) == BuildResourceKey(u, b, r)
    ensures NormalizeContentType(t) == NormalizeContentType(u) && a == b && q == r
  {
    var k, l := NormalizeContentType(t), NormalizeContentType(u);
    Regroup(k, a, q);
    Regroup(l, b, r);
    TypeFromFront(k, a + ":" + q, l, b + ":" + r);
    CanonicalHasNoColon(q);
    CanonicalHasNoColon(r);
    LastPart(a, q, b, r);
  }

  lemma TokensSplit(a: string, s: nat, e: nat, b: string, s': nat, e': nat)
    requires a + ":" + EpisodeToken(s, e) == b + ":" + EpisodeToken(s', e')
    ensures a == b && s == s' && e == e'
  {
    var x, y := "e" + PrintPadded(e), "e" + PrintPadded(e');
    var p, q := "s" + PrintPadded(s), "s" + PrintPadded(s');
    PaddedReads(e);
    PaddedReads(e');
    PaddedReads(s);
    PaddedReads(s');
    NoDash(PrintPadded(e));
    NoDash(PrintPadded(e'));
    NoDash(PrintPadded(s));
    NoDash(PrintPadded(s'));
    assert a + ":" + EpisodeToken(s, e) == (a + ":" + p) + ":" + x;
    assert b + ":" + EpisodeToken(s', e') == (b + ":" + q) + ":" + y;
    LastPart(a + ":" + p, x, b + ":" + q, y);
    LastPart(a, p, b, q);
    assert x[1..] == PrintPadded(e) && y[1..] == PrintPadded(e') && p[1..] == PrintPadded(s) && q[1..] == PrintPadded(s');
    PaddedInjective(s, s');
    PaddedInjective(e, e');
  }

  /** Episode keys determine type, title, season and episode. */
  lemma EpisodeKeyInjective(t: string, a: string, s: Option<int>, e: Option<int>, u: string, b: string, s': Option<int>, e': Option<int>)
    requires BuildEpisodeKey(t, a, SingleEpisode, s, e).Ok?
    requires BuildEpisodeKey(t, a, SingleEpisode, s, e) == BuildEpisodeKey(u, b, SingleEpisode, s', e')
    ensures NormalizeContentType(t) == NormalizeContentType(u) && a == b && e == e'
    ensures (if s.Some? then s.value else 1) == (if s'.Some? then s'.value else 1)
  {
    var k, l := NormalizeContentType(t), NormalizeContentType(u);
    var m: nat := if s.Some? then s.value else 1;
    var n: nat := if s'.Some? then s'.value else 1;
    Regroup(k, a, EpisodeToken(m, e.value));
    Regroup(l, b, EpisodeToken(n, e'.value));
    TypeFromFront(k, a + ":" + EpisodeToken(m, e.value), l, b + ":" + EpisodeToken(n, e'.value));
    TokensSplit(a, m, e.value, b, n, e'.value);
  }

  // ---------------------------------------------------------------- the whole resource

  /** A normalized resource gets its keys and fingerprint exactly when its season is absent or has two digits. */
  lemma KeysExistExactly(m: Option<Metadata>, matches: TitleMatches, title: string, contentType: string, year: Option<int>)
    ensures var e := NormalizeEpisode(m, matches);
            && (BuildResourceKey(contentType, title, e.range).Ok? <==> e.season.None? || e.season.value <= 99)
            && (BuildContentFingerprint(title, e.range, contentType, year).Ok? <==> e.season.None? || e.season.value <= 99)
            && BuildEpisodeKey(contentType, title, e.kind, e.season, e.episode).Ok?
  {
    AcceptedExactly(m, matches);
    NormalizedIsWellFormed(m, matches);
  }
}
