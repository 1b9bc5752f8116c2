/** The validator agent: compares a local album with the candidates a
    source returns, scores them, picks the best, classifies the result by
    the two thresholds and lists the corrections it suggests. The
    searches, the cover-archive lookup and `SequenceMatcher.ratio` are
    parameters. */
module Validator {
  import opened Wrappers
  import opened Text
  import Patterns
  import Json
  import SourceBase
  import State

  /** What `SequenceMatcher(None, a, b).ratio()` is known to satisfy: a
      value in [0, 1] that is 1 on equal strings. Symmetry is not assumed. */
  ghost predicate RatioOk(ratio: (string, string) -> real) {
    forall a, b :: 0.0 <= ratio(a, b) <= 1.0 && ratio(a, a) == 1.0
  }

  // ------------------------------------------------------ normalisation

  function EditionParens(t: string): nat { Patterns.GroupLen(t, '(', ')', "edition") }
  function EditionBrackets(t: string): nat { Patterns.GroupLen(t, '[', ']', "edition") }
  function RemasterParens(t: string): nat { Patterns.GroupLen(t, '(', ')', "remaster") }
  function RemasterBrackets(t: string): nat { Patterns.GroupLen(t, '[', ']', "remaster") }
  function AnyDiscMarker(t: string): nat { Patterns.DiscMarkerLen(t, ["disc", "cd", "disk"]) }

  /** The characters `_normalize_string` never leaves in its result. */
  predicate Punctuation(c: char) { c == '_' || c == '-' || c == ':' || c == '\'' || c == '"' }

  predicate CleanChar(c: char) { !IsUpper(c) && !Punctuation(c) }

  /** `_normalize_string`: lower case; `_ - :` become blanks and quotes go;
      edition and remaster groups, disc markers and volume markers are
      removed; whitespace is collapsed. */
  function NormalizeString(s: string): (r: string)
    ensures forall x :: x in r ==> CleanChar(x)
    ensures Tidy(r)
  {
    if s == [] then "" else Tidied(WithoutMarkers(Unpunctuated(s)))
  }

  /** `' '.join(s.split())` then `strip()`. */
  function Tidied(i: string): (r: string)
    requires forall x :: x in i ==> CleanChar(x)
    ensures forall x :: x in r ==> CleanChar(x)
    ensures Tidy(r)
  {
    var j := Collapse(i);
    assert forall x :: x in j ==> CleanChar(x);
    StripPrefixTidy(j, |j|);
    assert j[..|j|] == j;
    Strip(j)
  }

  /** Lower-cased, `_ - :` turned into blanks, quotes deleted. */
  function Unpunctuated(s: string): (c: string)
    ensures forall x :: x in c ==> CleanChar(x)
  {
    var a := Lower(s);
    LowerHasNoUpper(s);
    var b := ReplaceChar(ReplaceChar(ReplaceChar(a, '_', " "), '-', " "), ':', " ");
    DeleteChars(b, {'\'', '"'})
  }

  /** Edition and remaster groups, disc markers and volume markers removed, in that order. */
  function WithoutMarkers(c: string): (i: string)
    ensures forall x :: x in i ==> x in c
  {
    var d := Patterns.RemoveMatches(c, EditionParens);
    var e := Patterns.RemoveMatches(d, EditionBrackets);
    var f := Patterns.RemoveMatches(e, RemasterParens);
    var g := Patterns.RemoveMatches(f, RemasterBrackets);
    var h := Patterns.RemoveMatches(g, AnyDiscMarker);
    Patterns.RemoveMatches(h, VolumeMarker)
  }

  function VolumeMarker(t: string): nat { Patterns.VolumeLen(t) }

  /** Normalisation sees only the lower-cased text. */
  lemma NormalizeIgnoresCase(a: string, b: string)
    requires EqualsIgnoreCase(a, b)
    ensures NormalizeString(a) == NormalizeString(b)
  {
    assert |a| == |Lower(a)| && |b| == |Lower(b)|;
  }

  /** `\s*[\[\(]?(?:disc|cd)\s*\d+[\]\)]?\s*$` starting at `q`. */
  predicate DiscSuffixAt(t: string, q: nat) {
    q <= |t| &&
    var n := Patterns.DiscMarkerLen(t[q..], ["disc", "cd"]);
    n > 0 && q + n + |LeadingSpaces(t[q + n..])| == |t|
  }

  /** `\s*\[.*?\]$` starting at `q`: blanks, `[`, then a `]` that ends the
      string or sits just before a final newline, with no newline between. */
  predicate BracketSuffixAt(t: string, q: nat) {
    q <= |t| &&
    var o := q + |LeadingSpaces(t[q..])|;
    var k := if EndsWith(t, "\n") then |t| - 2 else |t| - 1;
    o < k && t[o] == '[' && t[k] == ']' && '\n' !in t[o + 1..k]
  }

  /** The text `\s*\[.*?\]$` leaves: the bracket run is cut, a final newline stays. */
  function CutBracketSuffix(t: string): (r: string)
    ensures r == t || exists q :: 0 <= q <= |t| && BracketSuffixAt(t, q)
    ensures forall x :: x in r ==> x in t
  {
    var q := Patterns.FirstWhere(t, BracketSuffixAt, 0);
    if q.None? then t
    else
      var nl := if EndsWith(t, "\n") then "\n" else "";
      assert forall x :: x in nl ==> x in t by {
        if nl != [] { assert t[|t| - 1] == '\n'; }
      }
      assert forall x :: x in t[..q.value] ==> x in t;
      t[..q.value] + nl
  }

  /** `_clean_title_for_search`: underscores to blanks, a trailing disc
      marker dropped, then a trailing bracket group dropped, then stripped. */
  function CleanTitleForSearch(title: string): (r: string)
    ensures '_' !in r
    ensures r != [] ==> !IsSpace(r[0]) && !IsSpace(r[|r| - 1])
  {
    var a := ReplaceChar(title, '_', " ");
    assert '_' !in a;
    var b := Patterns.CutTail(a, DiscSuffixAt);
    assert '_' !in b;
    var c := CutBracketSuffix(b);
    assert '_' !in c;
    Strip(c)
  }

  // ------------------------------------------------------------ scores

  /** `_title_similarity`. */
  function TitleSimilarity(local: string, remote: string, ratio: (string, string) -> real): (r: real)
    ensures local == [] || remote == [] ==> r == 0.0
    ensures local != [] && remote != [] && NormalizeString(local) == NormalizeString(remote) ==> r == 1.0
    ensures local != [] && remote != [] && NormalizeString(local) != NormalizeString(remote) ==>
              r == ratio(NormalizeString(local), NormalizeString(remote))
    ensures RatioOk(ratio) ==> 0.0 <= r <= 1.0
  {
    if local == [] || remote == [] then 0.0
    else
      var l, m := NormalizeString(local), NormalizeString(remote);
      if l == m then 1.0 else ratio(l, m)
  }

  /** `_artist_similarity`: as the title score, except that two artists that
      both mention "various" are a full match. */
  function ArtistSimilarity(local: string, remote: string, ratio: (string, string) -> real): (r: real)
    ensures local == [] || remote == [] ==> r == 0.0
    ensures local != [] && remote != [] &&
            Contains(NormalizeString(local), "various") && Contains(NormalizeString(remote), "various")
            ==> r == 1.0
    ensures local != [] && remote != [] && NormalizeString(local) == NormalizeString(remote) ==> r == 1.0
    ensures RatioOk(ratio) ==> 0.0 <= r <= 1.0
  {
    if local == [] || remote == [] then 0.0
    else
      var l, m := NormalizeString(local), NormalizeString(remote);
      if Contains(l, "various") && Contains(m, "various") then 1.0
      else if l == m then 1.0
      else ratio(l, m)
  }

  function Abs(x: int): nat { if x < 0 then -x else x }
  function Max(x: int, y: int): int { if x >= y then x else y }

  /** `_track_count_score`. */
  function TrackCountScore(local: int, remote: int): (r: real)
    ensures local == 0 || remote == 0 ==> r == 0.5
    ensures local != 0 && local == remote ==> r == 1.0
    ensures local != 0 && remote != 0 && local != remote && Abs(local - remote) <= 2 ==> r == 0.9
    ensures local != 0 && remote != 0 && 2 < Abs(local - remote) <= 5 ==> r == 0.7
    ensures local >= 0 && remote >= 0 ==> 0.0 <= r <= 1.0
  {
    if local == 0 || remote == 0 then 0.5
    else if local == remote then 1.0
    else
      var diff := Abs(local - remote);
      var top := Max(local, remote);
      if diff <= 2 then 0.9
      else if diff <= 5 then 0.7
      else
        var s := 1.0 - diff as real / top as real;
        if s > 0.0 then s else 0.0
  }

  /** Beyond a difference of five, the score is `1 - diff/max`, floored at 0. */
  lemma TrackCountScoreFar(local: nat, remote: nat)
    requires local > 0 && remote > 0 && Abs(local - remote) > 5
    ensures TrackCountScore(local, remote) ==
              var s := 1.0 - Abs(local - remote) as real / Max(local, remote) as real;
              if s > 0.0 then s else 0.0
    ensures TrackCountScore(local, remote) < 1.0
  {
    var diff, top := Abs(local - remote), Max(local, remote);
    assert 0 < diff < top;
    assert diff as real / top as real > 0.0;
  }

  /** The track-count score does not depend on which side is local. */
  lemma TrackCountScoreSymmetric(a: int, b: int)
    ensures TrackCountScore(a, b) == TrackCountScore(b, a)
  {
    assert Abs(a - b) == Abs(b - a);
    assert Max(a, b) == Max(b, a);
  }

  /** `_calculate_confidence`: 50% title, 30% artist, 20% track count. */
  function Confidence(localTitle: string, localArtist: string, localCount: int,
                      remoteTitle: string, remoteArtist: string, remoteCount: int,
                      ratio: (string, string) -> real): (c: real)
    ensures RatioOk(ratio) && localCount >= 0 && remoteCount >= 0 ==> 0.0 <= c <= 1.0
    ensures c == 0.5 * TitleSimilarity(localTitle, remoteTitle, ratio)
                 + 0.3 * ArtistSimilarity(localArtist, remoteArtist, ratio)
                 + 0.2 * TrackCountScore(localCount, remoteCount)
  {
    TitleSimilarity(localTitle, remoteTitle, ratio) * 0.5
    + ArtistSimilarity(localArtist, remoteArtist, ratio) * 0.3
    + TrackCountScore(localCount, remoteCount) * 0.2
  }

  /** A candidate identical to the local album scores exactly 1. */
  lemma ConfidenceOfIdentical(title: string, artist: string, count: int, ratio: (string, string) -> real)
    requires title != [] && artist != [] && count != 0
    ensures Confidence(title, artist, count, title, artist, count, ratio) == 1.0
  {
  }

  /** The score of one candidate against the local album. */
  function Score(m: SourceBase.AlbumMatch, title: string, artist: string, count: int,
                 ratio: (string, string) -> real): real
  {
    Confidence(title, artist, count, m.title, m.artist, m.trackCount, ratio)
  }

  /** `_find_best_match`, with `score` the `_calculate_confidence` of a
      candidate against the local album (`Score` below): the earliest
      candidate with the highest score, where only a score strictly above
      the best so far (starting at 0) replaces it. */
  method FindBestMatch(matches: seq<SourceBase.AlbumMatch>, score: SourceBase.AlbumMatch -> real)
    returns (best: Option<SourceBase.AlbumMatch>, bestScore: real)
    ensures bestScore >= 0.0
    ensures forall i :: 0 <= i < |matches| ==> score(matches[i]) <= bestScore
    ensures best.None? <==> forall i :: 0 <= i < |matches| ==> score(matches[i]) <= 0.0
    ensures best.None? ==> bestScore == 0.0
    ensures best.Some? ==> exists i :: 0 <= i < |matches| && matches[i] == best.value
                                       && score(matches[i]) == bestScore
                                       && forall j :: 0 <= j < i ==> score(matches[j]) < bestScore
  {
    best := None;
    bestScore := 0.0;
    ghost var at := 0;
    for k := 0 to |matches|
      invariant bestScore >= 0.0
      invariant forall i :: 0 <= i < k ==> score(matches[i]) <= bestScore
      invariant best.None? ==> bestScore == 0.0
      invariant best.Some? ==> at < k && matches[at] == best.value && score(matches[at]) == bestScore > 0.0
                               && forall j :: 0 <= j < at ==> score(matches[j]) < bestScore
    {
      var s := score(matches[k]);
      if s > bestScore {
        bestScore := s;
        best := Some(matches[k]);
        at := k;
      }
    }
  }

  // -------------------------------------------------------- corrections

  /** The `type` of a correction; `Other` holds any name the validator does not produce. */
  datatype Kind = FormattingOnly | TitleMismatch | MissingCover | Other(name: string) {
    function Name(): string {
      match this
      case FormattingOnly => "formatting_only"
      case TitleMismatch => "title_mismatch"
      case MissingCover => "missing_cover"
      case Other(name) => name
    }
  }

  /** The kind a correction's `type` string names. */
  function KindOf(name: string): (k: Kind)
    ensures k.Name() == name
    ensures k.Other? <==> name != "formatting_only" && name != "title_mismatch" && name != "missing_cover"
  {
    if name == "formatting_only" then FormattingOnly
    else if name == "title_mismatch" then TitleMismatch
    else if name == "missing_cover" then MissingCover
    else Other(name)
  }

  /** One suggested correction; `current` and `suggested` may be null. */
  datatype Correction = Correction(kind: Kind, field: string, current: Option<string>,
                                   suggested: Option<string>, safe: bool)

  /** The comparison behind "formatting only": lower case, `_-:[]()` deleted. */
  function FormattingKey(s: string): string {
    DeleteChars(Lower(s), {'_', '-', ':', '[', ']', '(', ')'})
  }

  /** The title correction: "formatting_only" (and safe) when the titles
      agree once case and `_-:[]()` are ignored, else "title_mismatch". */
  function TitleCorrection(localTitle: string, suggested: string): (c: Correction)
    ensures c.field == "title" && c.current == Some(localTitle) && c.suggested == Some(suggested)
    ensures c.kind == FormattingOnly <==> FormattingKey(localTitle) == FormattingKey(suggested)
    ensures c.kind == FormattingOnly || c.kind == TitleMismatch
    ensures c.safe <==> c.kind == FormattingOnly
  {
    var kind := if FormattingKey(localTitle) == FormattingKey(suggested) then FormattingOnly else TitleMismatch;
    Correction(kind, "title", Some(localTitle), Some(suggested), kind == FormattingOnly)
  }

  /** The titles differ once normalised. */
  predicate TitlesDiffer(a: string, b: string) { NormalizeString(a) != NormalizeString(b) }

  /** `_identify_corrections`: a title correction when the normalised titles
      differ, then a cover correction when the album has no cover and one is
      available. */
  function IdentifyCorrections(localTitle: string, m: SourceBase.AlbumMatch,
                               hasCover: bool, coverAvailable: bool): (r: seq<Correction>)
    ensures |r| == (if TitlesDiffer(localTitle, m.title) then 1 else 0) + (if !hasCover && coverAvailable then 1 else 0)
    ensures TitlesDiffer(localTitle, m.title) ==> r[0] == TitleCorrection(localTitle, m.title)
    ensures !hasCover && coverAvailable ==>
              r[|r| - 1] == Correction(MissingCover, "cover_art", None, m.coverUrl, true)
    ensures forall c :: c in r ==> (c.safe <==> c.kind == FormattingOnly || c.kind == MissingCover)
  {
    var differ := TitlesDiffer(localTitle, m.title);
    var title := if differ then [TitleCorrection(localTitle, m.title)] else [];
    var cover := if !hasCover && coverAvailable
                 then [Correction(MissingCover, "cover_art", None, m.coverUrl, true)] else [];
    title + cover
  }

  /** A title that differs from the match only in case needs no title correction. */
  lemma NoTitleCorrectionForCase(localTitle: string, m: SourceBase.AlbumMatch, hasCover: bool, coverAvailable: bool)
    requires EqualsIgnoreCase(localTitle, m.title)
    ensures forall c :: c in IdentifyCorrections(localTitle, m, hasCover, coverAvailable) ==> c.field != "title"
  {
    NormalizeIgnoresCase(localTitle, m.title);
  }

  // ----------------------------------------------------- classification

  datatype Verdict = Pending | AutoApproved | NeedsReview | Rejected | NotFound {
    function Name(): string {
      match this
      case Pending => "pending"
      case AutoApproved => "auto_approved"
      case NeedsReview => "needs_review"
      case Rejected => "rejected"
      case NotFound => "not_found"
    }
  }

  /** The threshold rule applied to a matched album. */
  function Classify(confidence: real, autoApprove: real, review: real): (v: Verdict)
    ensures v == AutoApproved <==> confidence >= autoApprove
    ensures v == NeedsReview <==> review <= confidence < autoApprove
    ensures v == Rejected <==> confidence < autoApprove && confidence < review
  {
    if confidence >= autoApprove then AutoApproved
    else if confidence >= review then NeedsReview
    else Rejected
  }

  /** A `ValidationResult`. */
  datatype ValidationResult = ValidationResult(
    albumPath: string, albumId: string, localTitle: string, localArtist: string, localTrackCount: int,
    matched: bool, matchSource: Option<string>, matchId: Option<string>, matchTitle: Option<string>,
    matchArtist: Option<string>, matchTrackCount: int, matchYear: Option<int>,
    confidence: real, titleScore: real, artistScore: real, trackCountScore: real,
    status: Verdict, coverAvailable: bool, coverUrl: Option<string>, corrections: seq<Correction>)

  /** A fresh result: nothing matched, every score 0, status pending. */
  function NewResult(path: string, albumId: string, title: string, artist: string, count: int): (r: ValidationResult)
    ensures !r.matched && r.status == Pending && r.corrections == [] && r.confidence == 0.0
    ensures r.albumPath == path && r.localTitle == title && r.localArtist == artist && r.localTrackCount == count
  {
    ValidationResult(path, albumId, title, artist, count, false, None, None, None, None, 0, None,
                     0.0, 0.0, 0.0, 0.0, Pending, false, None, [])
  }

  /** Where the cover comes from: the match's own URL when it has one, else
      the cover archive when the match is a MusicBrainz release. */
  function CoverOf(m: SourceBase.AlbumMatch, archiveHasCover: bool, archiveUrl: string): (r: (bool, Option<string>))
    ensures m.coverUrl.Some? && m.coverUrl.value != [] ==> r == (true, m.coverUrl)
    ensures (m.coverUrl.None? || m.coverUrl.value == []) && m.source == "musicbrainz" ==>
              r.0 == archiveHasCover && (r.1.Some? <==> archiveHasCover)
    ensures (m.coverUrl.None? || m.coverUrl.value == []) && m.source != "musicbrainz" ==> r == (false, None)
  {
    if m.coverUrl.Some? && m.coverUrl.value != [] then (true, m.coverUrl)
    else if m.source == "musicbrainz" then (archiveHasCover, if archiveHasCover then Some(archiveUrl) else None)
    else (false, None)
  }

  /** Candidate `i` is the one `_find_best_match` picks: its score is
      positive, no candidate scores higher and every earlier one scores lower. */
  ghost predicate EarliestBest(ms: seq<SourceBase.AlbumMatch>, i: int, score: SourceBase.AlbumMatch -> real) {
    0 <= i < |ms| && score(ms[i]) > 0.0
    && (forall j :: 0 <= j < |ms| ==> score(ms[j]) <= score(ms[i]))
    && (forall j :: 0 <= j < i ==> score(ms[j]) < score(ms[i]))
  }

  /** `Score` against one local album: the function applied to each candidate. */
  function Scorer(title: string, artist: string, count: int, ratio: (string, string) -> real)
    : SourceBase.AlbumMatch -> real
  {
    m => Score(m, title, artist, count, ratio)
  }

  /** The candidates `validate_album` ranks: MusicBrainz's, or iTunes's when there are none. */
  function Candidates(mbResults: seq<SourceBase.AlbumMatch>, itunesResults: seq<SourceBase.AlbumMatch>)
    : (ms: seq<SourceBase.AlbumMatch>)
    ensures mbResults != [] ==> ms == mbResults
    ensures mbResults == [] ==> ms == itunesResults
  {
    if mbResults != [] then mbResults else itunesResults
  }

  /** The fields `validate_album` fills in once `m` is chosen with score
      `confidence`: the match's identity, the three sub-scores, the cover,
      the corrections and the threshold verdict. */
  function Matched(base: ValidationResult, m: SourceBase.AlbumMatch, confidence: real, hasCover: bool,
                   archiveHasCover: bool, archiveUrl: string, autoApprove: real, review: real,
                   ratio: (string, string) -> real): (r: ValidationResult)
    ensures r.albumPath == base.albumPath && r.albumId == base.albumId
    ensures r.localTitle == base.localTitle && r.localArtist == base.localArtist
    ensures r.matched && r.confidence == confidence
  {
    var cover := CoverOf(m, archiveHasCover, archiveUrl);
    base.(matched := true, matchSource := Some(m.source), matchId := Some(m.sourceId),
          matchTitle := Some(m.title), matchArtist := Some(m.artist), matchTrackCount := m.trackCount,
          matchYear := m.year, confidence := confidence,
          titleScore := TitleSimilarity(base.localTitle, m.title, ratio),
          artistScore := ArtistSimilarity(base.localArtist, m.artist, ratio),
          trackCountScore := TrackCountScore(base.localTrackCount, m.trackCount),
          coverAvailable := cover.0, coverUrl := cover.1,
          corrections := IdentifyCorrections(base.localTitle, m, hasCover, cover.0),
          status := Classify(confidence, autoApprove, review))
  }

  /** `validate_album`. `mbResults` and `itunesResults` are what the two
      searches for the cleaned title return; the second is consulted only
      when the first is empty. `archiveHasCover` and `archiveUrl` are the
      cover archive's answers for the best match. */
  method ValidateAlbum(path: string, albumId: string, title: string, artist: string, count: int, hasCover: bool,
                       mbResults: seq<SourceBase.AlbumMatch>, itunesResults: seq<SourceBase.AlbumMatch>,
                       archiveHasCover: bool, archiveUrl: string,
                       autoApprove: real, review: real, ratio: (string, string) -> real)
    returns (r: ValidationResult, ghost chosen: Option<nat>)
    ensures r.albumPath == path && r.albumId == albumId && r.localTitle == title && r.localArtist == artist
    ensures var ms := Candidates(mbResults, itunesResults);
            r.matched <==> exists i :: 0 <= i < |ms| && Scorer(title, artist, count, ratio)(ms[i]) > 0.0
    ensures r.matched <==> chosen.Some?
    ensures chosen.None? ==> r == NewResult(path, albumId, title, artist, count).(status := NotFound)
    ensures chosen.Some? ==>
              var ms := Candidates(mbResults, itunesResults);
              var score := Scorer(title, artist, count, ratio);
              EarliestBest(ms, chosen.value, score)
              && r == Matched(NewResult(path, albumId, title, artist, count), ms[chosen.value], score(ms[chosen.value]),
                              hasCover, archiveHasCover, archiveUrl, autoApprove, review, ratio)
  {
    chosen := None;
    var base := NewResult(path, albumId, title, artist, count);
    var ms := mbResults;
    if ms == [] {
      ms := itunesResults;
    }
    if ms == [] {
      return base.(status := NotFound), None;
    }
    assert ms == Candidates(mbResults, itunesResults);
    var score := Scorer(title, artist, count, ratio);
    var best, confidence := FindBestMatch(ms, score);
    if best.Some? {
      ghost var i :| 0 <= i < |ms| && ms[i] == best.value && score(ms[i]) == confidence
                     && forall j :: 0 <= j < i ==> score(ms[j]) < confidence;
      assert EarliestBest(ms, i, score);
      chosen := Some(i);
      r := Matched(base, best.value, confidence, hasCover, archiveHasCover, archiveUrl, autoApprove, review, ratio);
      assert r.matched;
    } else {
      r := base.(status := NotFound);
      assert !exists j :: 0 <= j < |ms| && score(ms[j]) > 0.0;
    }
  }

  /** A matched result's verdict is the threshold rule applied to its confidence,
      and an unmatched one is "not_found" with no corrections. */
  lemma ValidateVerdict(base: ValidationResult, m: SourceBase.AlbumMatch, confidence: real, hasCover: bool,
                        archiveHasCover: bool, archiveUrl: string, autoApprove: real, review: real,
                        ratio: (string, string) -> real)
    ensures var r := Matched(base, m, confidence, hasCover, archiveHasCover, archiveUrl, autoApprove, review, ratio);
            r.matched && r.confidence == confidence
            && (r.status == AutoApproved <==> confidence >= autoApprove)
            && (r.status == NeedsReview <==> review <= confidence < autoApprove)
            && (r.status == Rejected <==> confidence < autoApprove && confidence < review)
            && |r.corrections| <= 2
  {
  }

  // ------------------------------------------------------------ process

  function OptStr(o: Option<string>): Json.Value {
    if o.Some? then Json.Str(o.value) else Json.Null
  }

  function CorrectionToDict(c: Correction): (d: Json.Obj)
    ensures d.Keys == {"type", "field", "current", "suggested", "safe"}
    ensures d["type"] == Json.Str(c.kind.Name()) && d["safe"] == Json.Bool(c.safe)
  {
    map["type" := Json.Str(c.kind.Name()), "field" := Json.Str(c.field), "current" := OptStr(c.current),
        "suggested" := OptStr(c.suggested), "safe" := Json.Bool(c.safe)]
  }

  function CorrectionsToList(cs: seq<Correction>): (vs: seq<Json.Value>)
    ensures |vs| == |cs|
    ensures forall i :: 0 <= i < |cs| ==> vs[i] == Json.Object(CorrectionToDict(cs[i]))
  {
    if cs == [] then [] else [Json.Object(CorrectionToDict(cs[0]))] + CorrectionsToList(cs[1..])
  }

  function OptInt(o: Option<int>): Json.Value {
    if o.Some? then Json.Int(o.value) else Json.Null
  }

  /** `ValidationResult.to_dict`. */
  function ResultToDict(r: ValidationResult): (d: Json.Obj)
    ensures "status" in d && d["status"] == Json.Str(r.status.Name())
    ensures "matched" in d && d["matched"] == Json.Bool(r.matched)
    ensures "confidence" in d && d["confidence"] == Json.Real(r.confidence)
    ensures "corrections" in d && d["corrections"].List? && |d["corrections"].items| == |r.corrections|
  {
    map["album_path" := Json.Str(r.albumPath), "album_id" := Json.Str(r.albumId),
        "local_title" := Json.Str(r.localTitle), "local_artist" := Json.Str(r.localArtist),
        "local_track_count" := Json.Int(r.localTrackCount), "matched" := Json.Bool(r.matched),
        "match_source" := OptStr(r.matchSource), "match_id" := OptStr(r.matchId),
        "match_title" := OptStr(r.matchTitle), "match_artist" := OptStr(r.matchArtist),
        "match_track_count" := Json.Int(r.matchTrackCount), "match_year" := OptInt(r.matchYear),
        "confidence" := Json.Real(r.confidence), "title_score" := Json.Real(r.titleScore),
        "artist_score" := Json.Real(r.artistScore), "track_count_score" := Json.Real(r.trackCountScore),
        "status" := Json.Str(r.status.Name()), "cover_available" := Json.Bool(r.coverAvailable),
        "cover_url" := OptStr(r.coverUrl), "corrections" := Json.List(CorrectionsToList(r.corrections))]
  }

  /** The fields of a queue item the validator reads; an empty `path` or
      `title` stands for one that is missing or empty, a `None` artist for
      one that is missing. */
  datatype Item = Item(path: string, title: string, folderName: string, artist: Option<string>,
                       trackCount: int, albumId: string, hasCover: bool)

  /** What `process` returns. */
  datatype Outcome =
    | Failed(error: string)
    | Validated(path: string, verdict: Verdict, confidence: real, matched: bool,
                correctionsNeeded: nat, data: ValidationResult)
  {
    function Status(): string { if Failed? then "error" else "success" }
  }

  /** `process`: an item without a path is an error; otherwise the title
      falls back to the folder name and the artist to "Various Artists",
      the album is validated and the result saved as phase "VALIDATED". */
  method Process(store: State.StateStore, item: Item,
                 mbResults: seq<SourceBase.AlbumMatch>, itunesResults: seq<SourceBase.AlbumMatch>,
                 archiveHasCover: bool, archiveUrl: string,
                 autoApprove: real, review: real, ratio: (string, string) -> real, now: string)
    returns (out: Outcome)
    requires State.DigestOk(store.digest)
    modifies store`albums
    ensures item.path == [] <==> out.Failed?
    ensures item.path == [] ==> store.albums == old(store.albums)
    ensures out.Validated? ==>
              out.data.localTitle == (if item.title != [] then item.title else item.folderName)
              && out.data.localArtist == item.artist.GetOr("Various Artists")
              && out.verdict == out.data.status && out.matched == out.data.matched
              && out.confidence == out.data.confidence
              && out.correctionsNeeded == |out.data.corrections|
              && var id := State.AlbumId(store.digest, item.path);
                 store.albums == old(store.albums)[id := State.SavedRecord(old(store.GetAlbumState(item.path)), id,
                                                                          item.path, "VALIDATED", ResultToDict(out.data), now)]
  {
    if item.path == [] {
      return Failed("No path provided");
    }
    var title := if item.title != [] then item.title else item.folderName;
    var artist := item.artist.GetOr("Various Artists");
    var r, _ := ValidateAlbum(item.path, item.albumId, title, artist, item.trackCount, item.hasCover,
                           mbResults, itunesResults, archiveHasCover, archiveUrl, autoApprove, review, ratio);
    assert r.localTitle == title && r.localArtist == artist;
    out := Validated(item.path, r.status, r.confidence, r.matched, |r.corrections|, r);
    store.SaveAlbumState(item.path, "VALIDATED", ResultToDict(r), now);
  }
}
