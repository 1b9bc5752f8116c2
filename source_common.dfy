/** What the Spotify, Discogs and MusicBrainz adapters share: the title
    cleaning each of them defines in identical words, the "first credited
    artist" rule, and Python's stable `sorted` for the two orders they use
    (album matches by confidence, highest first; tracks by disc, then track
    number). */
module SourceCommon {
  import opened Wrappers
  import opened Text
  import Patterns
  import opened SourceBase

  /** `artist.lower() == "various artists"`. */
  predicate IsVarious(artist: string) {
    Lower(artist) == "various artists"
  }

  /** `artists[0].get("name", unnamed) if artists else "Various Artists"`,
      for a credit list given by the names its entries carry. */
  function LeadArtist(names: seq<Option<string>>, unnamed: string): (r: string)
    ensures names == [] ==> r == "Various Artists"
    ensures names != [] && names[0].Some? ==> r == names[0].value
    ensures names != [] && names[0].None? ==> r == unnamed
  {
    if names == [] then "Various Artists" else names[0].GetOr(unnamed)
  }

  /** Python truthiness of an optional string: present and not empty. */
  predicate Truthy(s: Option<string>) {
    s.Some? && s.value != []
  }

  /** The append loop every adapter runs over a response list: one output
      per input, in input order. */
  method MapPass<A, B>(f: A -> B, xs: seq<A>) returns (ys: seq<B>)
    ensures |ys| == |xs|
    ensures forall k :: 0 <= k < |xs| ==> ys[k] == f(xs[k])
  {
    ys := [];
    var i := 0;
    while i < |xs|
      invariant 0 <= i <= |xs|
      invariant |ys| == i
      invariant forall k :: 0 <= k < i ==> ys[k] == f(xs[k])
    {
      ys := ys + [f(xs[i])];
      i := i + 1;
    }
  }

  /** The same loop when each output also carries its position, counted
      from 1. */
  method NumberedPass<A, B>(f: (A, nat) -> B, xs: seq<A>) returns (ys: seq<B>)
    ensures |ys| == |xs|
    ensures forall k :: 0 <= k < |xs| ==> ys[k] == f(xs[k], k + 1)
  {
    ys := [];
    var i := 0;
    while i < |xs|
      invariant 0 <= i <= |xs|
      invariant |ys| == i
      invariant forall k :: 0 <= k < i ==> ys[k] == f(xs[k], k + 1)
    {
      ys := ys + [f(xs[i], i + 1)];
      i := i + 1;
    }
  }

  // ------------------------------------------------------------ _clean_title

  const DiscWords: seq<string> := ["disc", "cd", "disk"]

  /** `\s*[\[\(]?(?:Disc|CD|Disk)\s*\d+[\]\)]?\s*$`, case-insensitive,
      matched from index `q` to the end of `t`. */
  predicate DiscIndicatorAt(t: string, q: nat) {
    q <= |t| &&
    var n := Patterns.DiscMarkerLen(t[q..], DiscWords);
    n > 0 && q + n + |LeadingSpaces(t[q + n..])| == |t|
  }

  /** `\s*\[[^\]]*(?:Edition|Version|Deluxe|Remaster)[^\]]*\]`,
      case-insensitive, at the front of `t`. Whichever word is found, the
      match runs to the first `]`, so the alternatives only decide whether
      there is a match. */
  function EditionMarkerLen(t: string): (n: nat)
    ensures n <= |t|
    ensures n > 0 ==> '[' in t
  {
    var e := Patterns.GroupLen(t, '[', ']', "edition");
    var v := Patterns.GroupLen(t, '[', ']', "version");
    var d := Patterns.GroupLen(t, '[', ']', "deluxe");
    var r := Patterns.GroupLen(t, '[', ']', "remaster");
    var n := if e > 0 then e else if v > 0 then v else if d > 0 then d else r;
    assert n > 0 ==> '[' in t by {
      if n > 0 {
        var q := |LeadingSpaces(t)|;
        assert q < |t| && t[q] == '[';
      }
    }
    n
  }

  /** `_clean_title`: underscores become blanks, a trailing disc indicator
      is cut, bracketed edition markers are removed, and whitespace is
      collapsed (`' '.join(title.split())`; the final `strip()` then has
      nothing left to remove). Only blanks are added. */
  function CleanTitle(title: string): (r: string)
    ensures '_' !in r
    ensures Tidy(r)
    ensures forall x :: x in r ==> x == ' ' || x in title
  {
    var a := ReplaceChar(title, '_', " ");
    var b := Patterns.CutTail(a, DiscIndicatorAt);
    var c := Patterns.RemoveMatches(b, EditionMarkerLen);
    Collapse(c)
  }

  /** A disc indicator needs at least one digit. */
  lemma MarkerNeedsDigit(t: string)
    ensures Patterns.DiscMarkerLen(t, DiscWords) > 0 ==> exists i :: 0 <= i < |t| && IsDigit(t[i])
  {
    if Patterns.DiscMarkerLen(t, DiscWords) > 0 {
      var c := Patterns.MarkerDigit(t, DiscWords);
    }
  }

  lemma NoDigitNoIndicator(t: string)
    requires forall i :: 0 <= i < |t| ==> !IsDigit(t[i])
    ensures forall q: nat :: !DiscIndicatorAt(t, q)
  {
    forall q: nat | q <= |t| ensures !DiscIndicatorAt(t, q) {
      MarkerNeedsDigit(t[q..]);
    }
  }

  /** A title that is already tidy, and has no underscore, no `[` and no
      digit, comes back unchanged. */
  lemma CleanPlainTitle(title: string)
    requires Tidy(title) && '_' !in title && '[' !in title
    requires forall i :: 0 <= i < |title| ==> !IsDigit(title[i])
    ensures CleanTitle(title) == title
  {
    var a := ReplaceChar(title, '_', " ");
    NoDigitNoIndicator(a);
    var b := Patterns.CutTail(a, DiscIndicatorAt);
    assert b == title;
    forall i | 0 <= i < |b| ensures EditionMarkerLen(b[i..]) == 0 {
      assert '[' !in b[i..] by {
        forall x | x in b[i..] ensures x in b {}
      }
    }
    Patterns.RemoveNoMatches(b, EditionMarkerLen);
    CollapseTidy(b);
  }

  /** `" Disc " + digits` is one whole disc indicator. */
  lemma DiscMarkerOfSuffix(d: string)
    requires d != [] && AllDigits(d)
    ensures Patterns.DiscMarkerLen(" Disc " + d, DiscWords) == 6 + |d|
  {
    SuffixRuns(d);
    SuffixKeyword(d);
  }

  lemma SuffixRuns(d: string)
    requires d != [] && AllDigits(d)
    ensures LeadingSpaces(" Disc " + d) == " "
    ensures LeadingSpaces((" Disc " + d)[5..]) == " "
    ensures LeadingDigits((" Disc " + d)[6..]) == d
  {
    var s := " Disc " + d;
    assert s[1..][0] == 'D';
    assert s[5..][1..] == d;
    DigitNotSpace(d[0]);
    assert s[6..] == d + [];
    LeadingDigitsOf(d, []);
  }

  lemma SuffixKeyword(d: string)
    ensures Patterns.KeywordLen(" Disc " + d, 1, DiscWords) == 4
  {
    var s := " Disc " + d;
    assert Patterns.LiteralAt(s, 1, "disc") by {
      assert s[1..5] == "Disc";
      assert Lower("Disc") == "disc";
    }
  }

  /** The indicator and its number are cut from a digit-free album name:
      what is left is made of the name's own characters and blanks. */
  lemma DiscIndicatorDropped(name: string, d: string)
    requires '_' !in name && forall i :: 0 <= i < |name| ==> !IsDigit(name[i])
    requires d != [] && AllDigits(d)
    ensures forall x :: x in CleanTitle(name + " Disc " + d) ==> x == ' ' || x in name
  {
    var t := name + (" Disc " + d);
    assert t == name + " Disc " + d;
    assert '_' !in t by {
      forall i | 0 <= i < |d| ensures d[i] != '_' {}
    }
    var a := ReplaceChar(t, '_', " ");
    assert a == t;
    assert DiscIndicatorAt(t, |name|) by {
      assert t[|name|..] == " Disc " + d;
      DiscMarkerOfSuffix(d);
    }
    var b := Patterns.CutTail(t, DiscIndicatorAt);
    assert |b| <= |name|;
    forall x | x in b ensures x in name {
      var j :| 0 <= j < |b| && b[j] == x;
      assert b[j] == t[j] == name[j];
    }
  }

  // --------------------------------------------- sorted(matches, key=confidence, reverse=True)

  predicate ByConfidence(s: seq<AlbumMatch>) {
    forall i, j :: 0 <= i < j < |s| ==> s[i].confidence >= s[j].confidence
  }

  /** The matches of `s` with confidence `c`, in their order in `s`. */
  function WithConfidence(s: seq<AlbumMatch>, c: real): (r: seq<AlbumMatch>)
    ensures forall x :: x in r ==> x in s && x.confidence == c
  {
    if s == [] then []
    else (if s[0].confidence == c then [s[0]] else []) + WithConfidence(s[1..], c)
  }

  lemma ConsByConfidence(a: AlbumMatch, t: seq<AlbumMatch>)
    requires ByConfidence(t)
    requires forall y :: y in t ==> a.confidence >= y.confidence
    ensures ByConfidence([a] + t)
  {
    forall i, j | 0 <= i < j < |[a] + t|
      ensures ([a] + t)[i].confidence >= ([a] + t)[j].confidence
    {
      assert ([a] + t)[j] == t[j - 1];
      assert t[j - 1] in t;
      if i > 0 { assert ([a] + t)[i] == t[i - 1]; }
    }
  }

  /** `x` placed before the first match whose confidence does not exceed its own. */
  function InsertByConfidence(x: AlbumMatch, s: seq<AlbumMatch>): (r: seq<AlbumMatch>)
    requires ByConfidence(s)
    ensures ByConfidence(r)
    ensures multiset(r) == multiset(s) + multiset{x}
  {
    if s == [] || s[0].confidence <= x.confidence then
      ConsByConfidence(x, s);
      [x] + s
    else
      var t := InsertByConfidence(x, s[1..]);
      HeadBoundsConfidence(s, x, t);
      ConsByConfidence(s[0], t);
      assert multiset([s[0]] + t) == multiset(s) + multiset{x} by {
        assert s == [s[0]] + s[1..];
      }
      [s[0]] + t
  }

  lemma HeadBoundsConfidence(s: seq<AlbumMatch>, x: AlbumMatch, t: seq<AlbumMatch>)
    requires ByConfidence(s) && s != [] && s[0].confidence > x.confidence
    requires multiset(t) == multiset(s[1..]) + multiset{x}
    ensures forall y :: y in t ==> s[0].confidence >= y.confidence
  {
    forall y | y in t ensures s[0].confidence >= y.confidence {
      assert y in multiset(t);
      if y != x {
        assert y in multiset(s[1..]);
        var k :| 0 <= k < |s[1..]| && s[1..][k] == y;
        assert s[k + 1] == y;
      }
    }
  }

  /** Inserting `x` puts it first among the matches of its own confidence
      and leaves every other confidence class as it was. */
  lemma {:induction false} InsertByConfidenceClasses(x: AlbumMatch, s: seq<AlbumMatch>, c: real)
    requires ByConfidence(s)
    ensures WithConfidence(InsertByConfidence(x, s), c) == (if c == x.confidence then [x] else []) + WithConfidence(s, c)
  {
    if s == [] || s[0].confidence <= x.confidence {
      WithConfidenceCons(x, s, c);
    } else {
      TailByConfidence(s);
      InsertByConfidenceClasses(x, s[1..], c);
      InsertByConfidencePast(s[0], x, InsertByConfidence(x, s[1..]), s[1..], c);
      assert InsertByConfidence(x, s) == [s[0]] + InsertByConfidence(x, s[1..]);
      assert [s[0]] + s[1..] == s;
    }
  }

  lemma WithConfidenceCons(a: AlbumMatch, t: seq<AlbumMatch>, c: real)
    ensures WithConfidence([a] + t, c) == (if a.confidence == c then [a] else []) + WithConfidence(t, c)
  {
    assert ([a] + t)[1..] == t;
  }

  lemma TailByConfidence(s: seq<AlbumMatch>)
    requires ByConfidence(s) && s != []
    ensures ByConfidence(s[1..])
  {
    forall i, j | 0 <= i < j < |s[1..]| ensures s[1..][i].confidence >= s[1..][j].confidence {
      assert s[1..][j] == s[j + 1] && s[1..][i] == s[i + 1];
    }
  }

  /** One step of `InsertByConfidenceClasses` when `x` goes past the match `a`. */
  lemma {:induction false} InsertByConfidencePast(a: AlbumMatch, x: AlbumMatch, t: seq<AlbumMatch>, u: seq<AlbumMatch>, c: real)
    requires a.confidence > x.confidence
    requires WithConfidence(t, c) == (if c == x.confidence then [x] else []) + WithConfidence(u, c)
    ensures WithConfidence([a] + t, c) == (if c == x.confidence then [x] else []) + WithConfidence([a] + u, c)
  {
    WithConfidenceCons(a, t, c);
    WithConfidenceCons(a, u, c);
  }

  /** `sorted(matches, key=lambda m: m.confidence, reverse=True)`. */
  function SortByConfidence(s: seq<AlbumMatch>): (r: seq<AlbumMatch>)
    ensures ByConfidence(r)
    ensures multiset(r) == multiset(s)
  {
    if s == [] then []
    else
      var t := SortByConfidence(s[1..]);
      assert s == [s[0]] + s[1..];
      InsertByConfidence(s[0], t)
  }

  /** Python's sort is stable: matches of equal confidence keep their order. */
  lemma {:induction false} SortByConfidenceStable(s: seq<AlbumMatch>, c: real)
    ensures WithConfidence(SortByConfidence(s), c) == WithConfidence(s, c)
  {
    if s != [] {
      SortByConfidenceStable(s[1..], c);
      InsertByConfidenceClasses(s[0], SortByConfidence(s[1..]), c);
    }
  }

  // ------------------------------ sorted(tracks, key=lambda t: (t.disc_number, t.track_number))

  /** The tuple order on `(disc_number, track_number)`: `a` sorts strictly before `b`. */
  predicate Before(a: TrackInfo, b: TrackInfo) {
    a.discNumber < b.discNumber || (a.discNumber == b.discNumber && a.trackNumber < b.trackNumber)
  }

  predicate InDiscOrder(s: seq<TrackInfo>) {
    forall i, j :: 0 <= i < j < |s| ==> !Before(s[j], s[i])
  }

  /** The tracks of `s` at disc `d`, position `n`, in their order in `s`. */
  function AtPosition(s: seq<TrackInfo>, d: int, n: int): (r: seq<TrackInfo>)
    ensures forall x :: x in r ==> x in s && x.discNumber == d && x.trackNumber == n
  {
    if s == [] then []
    else (if s[0].discNumber == d && s[0].trackNumber == n then [s[0]] else []) + AtPosition(s[1..], d, n)
  }

  lemma ConsInDiscOrder(a: TrackInfo, t: seq<TrackInfo>)
    requires InDiscOrder(t)
    requires forall y :: y in t ==> !Before(y, a)
    ensures InDiscOrder([a] + t)
  {
    forall i, j | 0 <= i < j < |[a] + t|
      ensures !Before(([a] + t)[j], ([a] + t)[i])
    {
      assert ([a] + t)[j] == t[j - 1];
      assert t[j - 1] in t;
      if i > 0 { assert ([a] + t)[i] == t[i - 1]; }
    }
  }

  /** `x` placed before the first track that does not sort before it. */
  function InsertTrack(x: TrackInfo, s: seq<TrackInfo>): (r: seq<TrackInfo>)
    requires InDiscOrder(s)
    ensures InDiscOrder(r)
    ensures multiset(r) == multiset(s) + multiset{x}
  {
    if s == [] || !Before(s[0], x) then
      ConsInDiscOrder(x, s);
      [x] + s
    else
      var t := InsertTrack(x, s[1..]);
      HeadBoundsTrack(s, x, t);
      ConsInDiscOrder(s[0], t);
      assert multiset([s[0]] + t) == multiset(s) + multiset{x} by {
        assert s == [s[0]] + s[1..];
      }
      [s[0]] + t
  }

  lemma HeadBoundsTrack(s: seq<TrackInfo>, x: TrackInfo, t: seq<TrackInfo>)
    requires InDiscOrder(s) && s != [] && Before(s[0], x)
    requires multiset(t) == multiset(s[1..]) + multiset{x}
    ensures forall y :: y in t ==> !Before(y, s[0])
  {
    forall y | y in t ensures !Before(y, s[0]) {
      assert y in multiset(t);
      if y != x {
        assert y in multiset(s[1..]);
        var k :| 0 <= k < |s[1..]| && s[1..][k] == y;
        assert s[k + 1] == y;
      }
    }
  }

  lemma AtPositionCons(a: TrackInfo, t: seq<TrackInfo>, d: int, n: int)
    ensures AtPosition([a] + t, d, n) ==
            (if a.discNumber == d && a.trackNumber == n then [a] else []) + AtPosition(t, d, n)
  {
    assert ([a] + t)[1..] == t;
  }

  lemma TailInDiscOrder(s: seq<TrackInfo>)
    requires InDiscOrder(s) && s != []
    ensures InDiscOrder(s[1..])
  {
    forall i, j | 0 <= i < j < |s[1..]| ensures !Before(s[1..][j], s[1..][i]) {
      assert s[1..][j] == s[j + 1] && s[1..][i] == s[i + 1];
    }
  }

  /** Inserting `x` puts it first among the tracks at its own position and
      leaves every other position as it was. */
  lemma {:induction false} InsertTrackClasses(x: TrackInfo, s: seq<TrackInfo>, d: int, n: int)
    requires InDiscOrder(s)
    ensures AtPosition(InsertTrack(x, s), d, n) ==
            (if x.discNumber == d && x.trackNumber == n then [x] else []) + AtPosition(s, d, n)
  {
    if s == [] || !Before(s[0], x) {
      AtPositionCons(x, s, d, n);
    } else {
      TailInDiscOrder(s);
      InsertTrackClasses(x, s[1..], d, n);
      InsertTrackPast(s[0], x, InsertTrack(x, s[1..]), s[1..], d, n);
      assert InsertTrack(x, s) == [s[0]] + InsertTrack(x, s[1..]);
      assert [s[0]] + s[1..] == s;
    }
  }

  /** One step of `InsertTrackClasses` when `x` goes past the track `a`. */
  lemma {:induction false} InsertTrackPast(a: TrackInfo, x: TrackInfo, t: seq<TrackInfo>, u: seq<TrackInfo>, d: int, n: int)
    requires Before(a, x)
    requires AtPosition(t, d, n) == (if x.discNumber == d && x.trackNumber == n then [x] else []) + AtPosition(u, d, n)
    ensures AtPosition([a] + t, d, n) ==
            (if x.discNumber == d && x.trackNumber == n then [x] else []) + AtPosition([a] + u, d, n)
  {
    AtPositionCons(a, t, d, n);
    AtPositionCons(a, u, d, n);
  }

  /** `sorted(tracks, key=lambda t: (t.disc_number, t.track_number))`. */
  function SortTracks(s: seq<TrackInfo>): (r: seq<TrackInfo>)
    ensures InDiscOrder(r)
    ensures multiset(r) == multiset(s)
  {
    if s == [] then []
    else
      var t := SortTracks(s[1..]);
      assert s == [s[0]] + s[1..];
      InsertTrack(s[0], t)
  }

  /** Tracks sharing a disc and track number keep their order. */
  lemma {:induction false} SortTracksStable(s: seq<TrackInfo>, d: int, n: int)
    ensures AtPosition(SortTracks(s), d, n) == AtPosition(s, d, n)
  {
    if s != [] {
      SortTracksStable(s[1..], d, n);
      InsertTrackClasses(s[0], SortTracks(s[1..]), d, n);
    }
  }
}
