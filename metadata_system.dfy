/** The decisions `MusicMetadataSystem` takes about one album once its tags
    and the trusted sources have been read: the quality score and its grade,
    the discrepancies with the best source match and how each is resolved,
    the cover-art check and its verdict, the album report, and the
    statistics `process_path` keeps over a run. Tag reading, the source
    queries, the file system and the clock are inputs. */
module MetadataSystem {
  import opened Wrappers
  import opened Text
  import Validator

  // ------------------------------------------------------------ inputs

  /** The tags read from an album's files: the album title of the first
      track carrying one ("" when none does) and each track's title ("" when
      the tag is absent). `track_count` is the number of tracks read. */
  datatype Current = Current(albumTitle: string, trackTitles: seq<string>) {
    function TrackCount(): nat { |trackTitles| }
  }

  /** The `best_match` record built from a source's full album. */
  datatype BestMatch = BestMatch(title: string, artist: string, trackCount: int)

  /** What `_enrich_metadata` returns: the sources that matched and the best
      match, `None` when no source gave one. */
  datatype Enrichment = Enrichment(sourcesMatched: seq<string>, best: Option<BestMatch>)

  // ------------------------------------------------------------ quality score

  /** The number of tracks whose title is non-empty. */
  function TitledCount(titles: seq<string>): (n: nat)
    ensures n <= |titles|
  {
    if titles == [] then 0
    else TitledCount(titles[..|titles| - 1]) + (if titles[|titles| - 1] != [] then 1 else 0)
  }

  /** Every track is titled exactly when the titled count is the track count. */
  lemma {:induction false} TitledCountAll(titles: seq<string>)
    ensures TitledCount(titles) == |titles| <==> forall i :: 0 <= i < |titles| ==> titles[i] != []
  {
    if titles != [] {
      var init := titles[..|titles| - 1];
      TitledCountAll(init);
      assert forall i :: 0 <= i < |init| ==> init[i] == titles[i];
      if TitledCount(titles) == |titles| {
        assert TitledCount(init) == |init| && titles[|titles| - 1] != [];
      }
    }
  }

  /** The points for the track count: 20 when equal, 10 within two. */
  function CountPoints(current: int, source: int): (p: int)
    ensures p == 20 <==> current == source
    ensures p == 10 <==> current != source && Validator.Abs(current - source) <= 2
    ensures p == 0 <==> Validator.Abs(current - source) > 2
  {
    if current == source then 20 else if Validator.Abs(current - source) <= 2 then 10 else 0
  }

  /** `_calculate_quality_score`: 50 without a best match; otherwise the
      track-count points, 30 when a source matched, 25 for an album title,
      25 when every one of at least one track is titled, capped at 100. */
  function QualityScore(current: Current, e: Enrichment): (score: int)
    ensures 0 <= score <= 100 && score % 5 == 0
    ensures e.best.None? ==> score == 50
  {
    match e.best
    case None => 50
    case Some(best) =>
      var titled := TitledCount(current.trackTitles);
      var s := CountPoints(current.TrackCount(), best.trackCount)
               + (if e.sourcesMatched != [] then 30 else 0)
               + (if current.albumTitle != [] then 25 else 0)
               + (if titled == current.TrackCount() && titled > 0 then 25 else 0);
      if s < 100 then s else 100
  }

  /** The score is 100 exactly when every criterion holds. */
  lemma PerfectScore(current: Current, e: Enrichment)
    ensures QualityScore(current, e) == 100 <==>
            e.best.Some? && current.TrackCount() == e.best.value.trackCount && e.sourcesMatched != []
            && current.albumTitle != [] && current.trackTitles != []
            && forall i :: 0 <= i < |current.trackTitles| ==> current.trackTitles[i] != []
  {
    TitledCountAll(current.trackTitles);
  }

  /** Without any matching source the score stays at most 70, so a match
      from no source at all cannot make an album excellent or good. */
  lemma NoSourceAtMostSeventy(current: Current, e: Enrichment)
    requires e.sourcesMatched == []
    ensures QualityScore(current, e) <= 70
  {
  }

  // ------------------------------------------------------------ grade

  /** The validation status of a score. */
  datatype Grade = Excellent | Good | Acceptable | Poor {
    /** The grade's rank, best first. */
    function Rank(): nat {
      match this
      case Excellent => 3
      case Good => 2
      case Acceptable => 1
      case Poor => 0
    }
  }

  /** `_get_validation_status`: excellent from 90, good from 80, acceptable
      from 70, else poor. */
  function GradeOf(score: int): (g: Grade)
    ensures g == Excellent <==> score >= 90
    ensures g == Good <==> 80 <= score < 90
    ensures g == Acceptable <==> 70 <= score < 80
    ensures g == Poor <==> score < 70
  {
    if score >= 90 then Excellent
    else if score >= 80 then Good
    else if score >= 70 then Acceptable
    else Poor
  }

  /** A higher score never gets a worse grade. */
  lemma GradeMonotone(a: int, b: int)
    requires a <= b
    ensures GradeOf(a).Rank() <= GradeOf(b).Rank()
  {
  }

  // ------------------------------------------------------------ discrepancies

  datatype Field = TrackCountField | AlbumTitleField
  datatype Severity = Critical | High

  /** A value shown in a discrepancy: a track count or a title. */
  datatype Shown = Count(n: int) | Title(s: string)

  datatype Discrepancy = Discrepancy(field: Field, current: Shown, source: Shown, severity: Severity, confidence: int)

  /** `ds` reports `f`. */
  predicate Reports(ds: seq<Discrepancy>, f: Field) {
    exists i :: 0 <= i < |ds| && ds[i].field == f
  }

  /** The two titles differ in a way the comparison sees: both present and
      unequal once lowercased. */
  predicate TitlesDiffer(current: string, source: string) {
    current != [] && source != [] && Lower(current) != Lower(source)
  }

  /** `_find_discrepancies`: nothing without a best match; otherwise a
      critical track-count discrepancy (confidence 90) when the counts differ,
      then a high album-title one (confidence 80) when the titles differ. */
  function FindDiscrepancies(current: Current, e: Enrichment): (ds: seq<Discrepancy>)
    ensures e.best.None? ==> ds == []
    ensures Reports(ds, TrackCountField) <==> e.best.Some? && current.TrackCount() != e.best.value.trackCount
    ensures Reports(ds, AlbumTitleField) <==> e.best.Some? && TitlesDiffer(current.albumTitle, e.best.value.title)
    ensures forall i :: 0 <= i < |ds| && ds[i].field == TrackCountField ==>
              i == 0 && ds[i] == Discrepancy(TrackCountField, Count(current.TrackCount()),
                                             Count(e.best.value.trackCount), Critical, 90)
    ensures forall i :: 0 <= i < |ds| && ds[i].field == AlbumTitleField ==>
              i == |ds| - 1 && ds[i] == Discrepancy(AlbumTitleField, Title(current.albumTitle),
                                                    Title(e.best.value.title), High, 80)
  {
    match e.best
    case None => []
    case Some(best) =>
      var countDiffers := current.TrackCount() != best.trackCount;
      var titleDiffers := TitlesDiffer(current.albumTitle, best.title);
      var ds :=
        (if countDiffers
         then [Discrepancy(TrackCountField, Count(current.TrackCount()), Count(best.trackCount), Critical, 90)]
         else [])
        + (if titleDiffers
           then [Discrepancy(AlbumTitleField, Title(current.albumTitle), Title(best.title), High, 80)]
           else []);
      assert countDiffers ==> ds[0].field == TrackCountField;
      assert titleDiffers ==> ds[|ds| - 1].field == AlbumTitleField;
      ds
  }

  // ------------------------------------------------------------ validation

  /** What `_validate_metadata_with_agent` returns. */
  datatype Validation = Validation(qualityScore: int, grade: Grade, trackCountMatch: bool,
                                   requiresReview: bool, discrepancies: seq<Discrepancy>)

  /** The best match's track count, with a missing match read as `{}`. */
  function MatchCount(e: Enrichment): (n: int)
    ensures e.best.Some? ==> n == e.best.value.trackCount
    ensures e.best.None? ==> n == 0
  {
    if e.best.Some? then e.best.value.trackCount else 0
  }

  /** `_validate_metadata_with_agent` as written: `best_match` is read with
      `.get('best_match', {})`, but `_enrich_metadata` always stores the key,
      as `None` when nothing matched, so the `.get('track_count', 0)` on it
      raises and the album ends as an error. */
  function ValidateAsWritten(current: Current, e: Enrichment): (r: Result<Validation, string>)
    ensures r.Err? <==> e.best.None?
    ensures r.Ok? ==> r.value == Validate(current, e)
  {
    if e.best.None? then Err("'NoneType' object has no attribute 'get'")
    else Ok(Validate(current, e))
  }

  /** The validation the code evidently intends: a missing match counts as
      an empty record, so the album is scored (50) and sent to review. */
  function Validate(current: Current, e: Enrichment): (v: Validation)
    ensures v.qualityScore == QualityScore(current, e)
    ensures v.grade == GradeOf(v.qualityScore)
    ensures v.trackCountMatch <==> current.TrackCount() == MatchCount(e)
    ensures v.requiresReview <==> v.qualityScore < 70
    ensures v.discrepancies == FindDiscrepancies(current, e)
  {
    var q := QualityScore(current, e);
    Validation(q, GradeOf(q), current.TrackCount() == MatchCount(e), q < 70, FindDiscrepancies(current, e))
  }

  /** The discrepancy: an album no source matches is never validated as
      written, while the intended validation scores it and asks for review. */
  lemma NoMatchRaises(current: Current, matched: seq<string>)
    ensures ValidateAsWritten(current, Enrichment(matched, None)).Err?
    ensures Validate(current, Enrichment(matched, None)).qualityScore == 50
    ensures Validate(current, Enrichment(matched, None)).requiresReview
  {
  }

  // ------------------------------------------------------------ resolution

  datatype Action = Update | Review

  datatype Resolution = Resolution(field: Field, action: Action, currentValue: Shown,
                                   recommendedValue: Shown, confidence: int)

  /** The resolution of one discrepancy: UPDATE from confidence 85, else REVIEW. */
  function Resolve(d: Discrepancy): (r: Resolution)
    ensures r.action == Update <==> d.confidence >= 85
    ensures r.field == d.field && r.confidence == d.confidence
    ensures r.currentValue == d.current && r.recommendedValue == d.source
  {
    Resolution(d.field, if d.confidence >= 85 then Update else Review, d.current, d.source, d.confidence)
  }

  /** What `_resolve_conflicts_with_agent` returns; the artwork decision is
      always PRESERVE. */
  datatype Conflicts = Conflicts(resolved: bool, resolutions: seq<Resolution>, requiresReview: bool)

  /** `_resolve_conflicts_with_agent`: one resolution per discrepancy, in
      order, when there is a best match; resolved unless review is required. */
  method ResolveConflicts(e: Enrichment, v: Validation) returns (r: Conflicts)
    ensures |r.resolutions| == if e.best.Some? then |v.discrepancies| else 0
    ensures forall i :: 0 <= i < |r.resolutions| ==> r.resolutions[i] == Resolve(v.discrepancies[i])
    ensures r.resolved <==> !v.requiresReview
    ensures r.requiresReview == v.requiresReview
  {
    var resolutions: seq<Resolution> := [];
    if e.best.Some? {
      var i := 0;
      while i < |v.discrepancies|
        invariant 0 <= i <= |v.discrepancies| && |resolutions| == i
        invariant forall k :: 0 <= k < i ==> resolutions[k] == Resolve(v.discrepancies[k])
      {
        resolutions := resolutions + [Resolve(v.discrepancies[i])];
        i := i + 1;
      }
    }
    r := Conflicts(!v.requiresReview, resolutions, v.requiresReview);
  }

  /** A track-count discrepancy is always applied and a title one always
      reviewed. */
  lemma DiscrepancyActions(current: Current, e: Enrichment)
    ensures forall d :: d in FindDiscrepancies(current, e) ==>
              (Resolve(d).action == Update <==> d.field == TrackCountField)
  {
  }

  // ------------------------------------------------------------ cover art

  /** The number of tracks carrying a cover (`None`: no cover, or the tags
      could not be read). */
  function CoveredCount(covers: seq<Option<nat>>): (n: nat)
    ensures n <= |covers|
  {
    if covers == [] then 0
    else CoveredCount(covers[..|covers| - 1]) + (if covers[|covers| - 1].Some? then 1 else 0)
  }

  /** The non-zero cover sizes, in track order (a zero size is falsy and
      not recorded). */
  function CoverSizes(covers: seq<Option<nat>>): (sizes: seq<nat>)
    ensures |sizes| <= CoveredCount(covers)
    ensures forall i :: 0 <= i < |sizes| ==> sizes[i] > 0
  {
    if covers == [] then []
    else
      var last := covers[|covers| - 1];
      CoverSizes(covers[..|covers| - 1]) + (if last.Some? && last.value > 0 then [last.value] else [])
  }

  function SumOf(s: seq<nat>): (t: nat)
    ensures s != [] && (forall i :: 0 <= i < |s| ==> s[i] > 0) ==> t >= |s|
  {
    if s == [] then 0 else SumOf(s[..|s| - 1]) + s[|s| - 1]
  }

  /** The mean of the recorded sizes. */
  function Mean(sizes: seq<nat>): real
    requires sizes != []
  {
    SumOf(sizes) as real / |sizes| as real
  }

  function RealAbs(x: real): real { if x < 0.0 then -x else x }

  /** Every size is within 10% of the mean (true when the mean is 0). */
  predicate Consistent(sizes: seq<nat>) {
    sizes == [] || Mean(sizes) <= 0.0
    || forall i :: 0 <= i < |sizes| ==> RealAbs(sizes[i] as real - Mean(sizes)) / Mean(sizes) < 0.1
  }

  /** What `_check_cover_art` reports. */
  datatype CoverCheck = CoverCheck(total: nat, hasCover: nat, missingCover: nat, coverSizes: seq<nat>,
                                   allHaveCover: bool, consistent: bool, avgCoverSize: nat)

  /** The report `_check_cover_art` builds for the album's audio files. */
  function CoverCheckOf(covers: seq<Option<nat>>): (c: CoverCheck)
    ensures c.hasCover + c.missingCover == c.total == |covers|
    ensures c.allHaveCover <==> c.missingCover == 0 && c.total > 0
  {
    var sizes := CoverSizes(covers);
    var has := CoveredCount(covers);
    CoverCheck(|covers|, has, |covers| - has, sizes, has == |covers| && |covers| > 0,
               Consistent(sizes), if sizes == [] then 0 else SumOf(sizes) / |sizes|)
  }

  /** `_check_cover_art` over the cover found in each audio file, in name
      order. */
  method CheckCoverArt(covers: seq<Option<nat>>) returns (c: CoverCheck)
    ensures c == CoverCheckOf(covers)
  {
    var total, has, missing, sizes := CoverPass(covers);
    var consistent := true;
    var avg := 0;
    if sizes != [] {
      consistent := Consistent(sizes);
      avg := SumOf(sizes) / |sizes|;
    }
    c := CoverCheck(total, has, missing, sizes, missing == 0 && total > 0, consistent, avg);
  }

  /** The loop of `_check_cover_art`: files counted, covers found and
      missing, and the sizes of the covers that have data. */
  method CoverPass(covers: seq<Option<nat>>) returns (total: nat, has: nat, missing: nat, sizes: seq<nat>)
    ensures total == |covers| && has == CoveredCount(covers) && missing == total - has
    ensures sizes == CoverSizes(covers)
  {
    total, has, missing := 0, 0, 0;
    sizes := [];
    while total < |covers|
      invariant 0 <= total <= |covers|
      invariant has == CoveredCount(covers[..total]) && missing == total - has
      invariant sizes == CoverSizes(covers[..total])
    {
      CoverStep(covers, total);
      var cover := covers[total];
      total := total + 1;
      if cover.Some? {
        has := has + 1;
        if cover.value > 0 {
          sizes := sizes + [cover.value];
        }
      } else {
        missing := missing + 1;
      }
    }
    assert covers[..total] == covers;
  }

  /** One more file: its cover is counted and its size recorded. */
  lemma CoverStep(covers: seq<Option<nat>>, k: nat)
    requires k < |covers|
    ensures CoveredCount(covers[..k + 1]) == CoveredCount(covers[..k]) + (if covers[k].Some? then 1 else 0)
    ensures CoverSizes(covers[..k + 1])
            == CoverSizes(covers[..k]) + (if covers[k].Some? && covers[k].value > 0 then [covers[k].value] else [])
  {
    assert covers[..k + 1][..k] == covers[..k];
  }

  /** Every track is covered exactly when the covered count is the total. */
  lemma {:induction false} CoveredCountAll(covers: seq<Option<nat>>)
    ensures CoveredCount(covers) == |covers| <==> forall i :: 0 <= i < |covers| ==> covers[i].Some?
    ensures CoveredCount(covers) == 0 <==> forall i :: 0 <= i < |covers| ==> covers[i].None?
  {
    if covers != [] {
      var init := covers[..|covers| - 1];
      CoveredCountAll(init);
      assert forall i :: 0 <= i < |init| ==> init[i] == covers[i];
    }
  }

  /** Covers of one size are consistent. */
  lemma SameSizeConsistent(sizes: seq<nat>, n: nat)
    requires sizes != [] && n > 0
    requires forall i :: 0 <= i < |sizes| ==> sizes[i] == n
    ensures Consistent(sizes)
  {
    SumOfSame(sizes, n);
    assert Mean(sizes) == n as real;
  }

  lemma {:induction false} SumOfSame(sizes: seq<nat>, n: nat)
    requires forall i :: 0 <= i < |sizes| ==> sizes[i] == n
    ensures SumOf(sizes) == |sizes| * n
  {
    if sizes != [] {
      SumOfSame(sizes[..|sizes| - 1], n);
    }
  }

  datatype CoverStatus = Valid | Missing | Incomplete

  /** What `_validate_cover_art` returns. */
  datatype CoverValidation = CoverValidation(status: CoverStatus, issues: seq<string>, recommendations: seq<string>,
                                             needsCover: bool, needsReplacement: bool)

  const MinCoverSize := 50000

  /** `_validate_cover_art`: missing when no track has a cover, incomplete
      when some lack one; an issue for covers of varying size (more than one
      cover) and for a small average; the status stays valid when no track
      lacks a cover whatever other issues are listed. */
  function ValidateCoverArt(c: CoverCheck): (v: CoverValidation)
    ensures v.needsCover <==> c.missingCover > 0
    ensures v.status == Missing <==> c.missingCover > 0 && c.hasCover == 0
    ensures v.status == Incomplete <==> c.missingCover > 0 && c.hasCover > 0
    ensures v.status == Valid <==> c.missingCover == 0
    ensures v.needsReplacement <==> 0 < c.avgCoverSize < MinCoverSize
    ensures v.issues == [] <==> c.missingCover == 0 && (c.consistent || c.hasCover <= 1) && !v.needsReplacement
    ensures |v.recommendations| <= |v.issues|
  {
    var varies := !c.consistent && c.hasCover > 1;
    var small := 0 < c.avgCoverSize < MinCoverSize;
    var issues := MissingIssue(c) + CoverIssues(varies, small, c.avgCoverSize);
    CoverValidation(
      if c.missingCover == 0 then Valid else if c.hasCover == 0 then Missing else Incomplete,
      issues,
      CoverAdvice(varies, small),
      c.missingCover > 0,
      small)
  }

  /** The advice for varying and for small covers. */
  function CoverAdvice(varies: bool, small: bool): (r: seq<string>)
    ensures |r| == (if varies then 1 else 0) + (if small then 1 else 0)
  {
    (if varies then ["Consider re-embedding cover art for consistency"] else [])
    + (if small then ["Consider replacing with higher resolution artwork"] else [])
  }

  /** The issue about tracks without a cover, if any lacks one. */
  function MissingIssue(c: CoverCheck): (r: seq<string>)
    ensures |r| == if c.missingCover == 0 then 0 else 1
  {
    if c.missingCover == 0 then []
    else if c.hasCover == 0 then ["No cover art found in any of " + NatToString(c.total) + " tracks"]
    else [NatToString(c.missingCover) + " of " + NatToString(c.total) + " tracks missing cover art"]
  }

  /** The issues about varying and about small covers. */
  function CoverIssues(varies: bool, small: bool, avgCoverSize: nat): (r: seq<string>)
    ensures |r| == (if varies then 1 else 0) + (if small then 1 else 0)
  {
    (if varies then ["Cover art sizes vary significantly between tracks"] else [])
    + (if small then ["Cover art appears low quality (avg " + NatToString(avgCoverSize / 1000) + "KB)"] else [])
  }

  /** Over the album's files: a cover is needed exactly when some file lacks
      one, and the status is missing exactly when a file exists and none has
      a cover. */
  lemma CoverVerdict(covers: seq<Option<nat>>)
    ensures ValidateCoverArt(CoverCheckOf(covers)).needsCover <==> exists i :: 0 <= i < |covers| && covers[i].None?
    ensures ValidateCoverArt(CoverCheckOf(covers)).status == Missing <==>
            covers != [] && forall i :: 0 <= i < |covers| ==> covers[i].None?
  {
    CoveredCountAll(covers);
    if covers != [] && forall i :: 0 <= i < |covers| ==> covers[i].None? {
      assert covers[0].None?;
    }
  }

  // ------------------------------------------------------------ album report

  /** One discovered album: its folder name, the tags read, what the sources
      returned, and the exception one of the file-system steps raised, if any. */
  datatype AlbumInput = AlbumInput(folderName: string, current: Current, enrichment: Enrichment, failure: Option<string>)

  /** The result `_process_album` returns: a report, or the error raised. */
  datatype AlbumResult =
    | Report(title: string, artist: string, trackCount: nat, qualityScore: int, success: bool,
             requiresReview: bool, sourcesUsed: seq<string>)
    | Error(error: string)
  {
    /** `r.get('quality_score', 0)`. */
    function Score(): int { if Report? then qualityScore else 0 }
  }

  /** `_process_album` with the intended validation: the album report, whose
      title and artist default to the folder name and "Various Artists",
      whose status is success from score 70, and whose review flag is the
      resolution's. */
  function ProcessAlbum(a: AlbumInput): (r: AlbumResult)
    ensures r.Error? <==> a.failure.Some?
    ensures r.Report? ==> r.qualityScore == QualityScore(a.current, a.enrichment)
    ensures r.Report? ==> (r.success <==> r.qualityScore >= 70) && (r.requiresReview <==> !r.success)
    ensures r.Report? && a.enrichment.best.None? ==> r.title == a.folderName && r.artist == "Various Artists"
  {
    if a.failure.Some? then Error(a.failure.value)
    else
      var v := Validate(a.current, a.enrichment);
      var best := a.enrichment.best;
      Report(if best.Some? then best.value.title else a.folderName,
             if best.Some? then best.value.artist else "Various Artists",
             a.current.TrackCount(), v.qualityScore, v.qualityScore >= 70, v.requiresReview,
             a.enrichment.sourcesMatched)
  }

  // ------------------------------------------------------------ statistics

  datatype Bucket = SuccessBucket | ReviewBucket | FailedBucket

  /** The counter `process_path` increments for a result. */
  function BucketOf(r: AlbumResult): (b: Bucket)
    ensures b == SuccessBucket <==> r.Report? && r.success
    ensures b == ReviewBucket <==> r.Report? && !r.success && r.requiresReview
  {
    if r.Report? && r.success then SuccessBucket
    else if r.Report? && r.requiresReview then ReviewBucket
    else FailedBucket
  }

  function CountBucket(results: seq<AlbumResult>, b: Bucket): (n: nat)
    ensures n <= |results|
  {
    if results == [] then 0
    else CountBucket(results[..|results| - 1], b) + (if BucketOf(results[|results| - 1]) == b then 1 else 0)
  }

  /** The three counters split the results. */
  lemma {:induction false} BucketsPartition(results: seq<AlbumResult>)
    ensures CountBucket(results, SuccessBucket) + CountBucket(results, ReviewBucket)
            + CountBucket(results, FailedBucket) == |results|
  {
    if results != [] {
      BucketsPartition(results[..|results| - 1]);
    }
  }

  function CountFailures(albums: seq<AlbumInput>): (n: nat)
    ensures n <= |albums|
  {
    if albums == [] then 0
    else CountFailures(albums[..|albums| - 1]) + (if albums[|albums| - 1].failure.Some? then 1 else 0)
  }

  function ProcessAll(albums: seq<AlbumInput>): (results: seq<AlbumResult>)
    ensures |results| == |albums|
    ensures forall i :: 0 <= i < |albums| ==> results[i] == ProcessAlbum(albums[i])
  {
    if albums == [] then [] else ProcessAll(albums[..|albums| - 1]) + [ProcessAlbum(albums[|albums| - 1])]
  }

  /** One more result adds one to its own bucket's count only. */
  lemma CountSnoc(results: seq<AlbumResult>, r: AlbumResult)
    ensures forall b :: CountBucket(results + [r], b) == CountBucket(results, b) + (if BucketOf(r) == b then 1 else 0)
  {
    assert (results + [r])[..|results|] == results;
  }

  /** Processing one more album appends its result. */
  lemma ProcessAllStep(albums: seq<AlbumInput>, i: nat)
    requires i < |albums|
    ensures ProcessAll(albums[..i + 1]) == ProcessAll(albums[..i]) + [ProcessAlbum(albums[i])]
  {
    assert albums[..i + 1][..i] == albums[..i];
  }

  /** An album is counted as failed exactly when one of its steps raised:
      a processed report is always either a success or up for review. */
  lemma {:induction false} FailedAreFailures(albums: seq<AlbumInput>)
    ensures CountBucket(ProcessAll(albums), FailedBucket) == CountFailures(albums)
  {
    if albums != [] {
      var init := albums[..|albums| - 1];
      FailedAreFailures(init);
      assert ProcessAll(albums)[..|albums| - 1] == ProcessAll(init);
    }
  }

  /** `_process_album` as written: an album no source matched makes the
      validation raise, and the exception handler turns the album into an
      error result; every other album gets the report `ProcessAlbum` gives. */
  function ProcessAlbumAsWritten(a: AlbumInput): (r: AlbumResult)
    ensures a.failure.None? && a.enrichment.best.None? ==> r.Error?
    ensures a.failure.Some? || a.enrichment.best.Some? ==> r == ProcessAlbum(a)
  {
    if a.failure.Some? then Error(a.failure.value)
    else
      match ValidateAsWritten(a.current, a.enrichment)
      case Err(m) => Error(m)
      case Ok(_) => ProcessAlbum(a)
  }

  function ProcessAllAsWritten(albums: seq<AlbumInput>): (results: seq<AlbumResult>)
    ensures |results| == |albums|
  {
    if albums == [] then []
    else ProcessAllAsWritten(albums[..|albums| - 1]) + [ProcessAlbumAsWritten(albums[|albums| - 1])]
  }

  /** The albums that raised nothing but that no source matched. */
  function CountUnmatched(albums: seq<AlbumInput>): (n: nat)
    ensures n <= |albums|
  {
    if albums == [] then 0
    else CountUnmatched(albums[..|albums| - 1])
         + (if albums[|albums| - 1].failure.None? && albums[|albums| - 1].enrichment.best.None? then 1 else 0)
  }

  /** As written, every unmatched album is counted as failed on top of the
      failures `process_path` counts with the intended validation. */
  lemma {:induction false} AsWrittenFailsUnmatched(albums: seq<AlbumInput>)
    ensures CountBucket(ProcessAllAsWritten(albums), FailedBucket)
            == CountBucket(ProcessAll(albums), FailedBucket) + CountUnmatched(albums)
  {
    if albums != [] {
      var init := albums[..|albums| - 1];
      AsWrittenFailsUnmatched(init);
      assert ProcessAllAsWritten(albums)[..|albums| - 1] == ProcessAllAsWritten(init);
      assert ProcessAll(albums)[..|albums| - 1] == ProcessAll(init);
      var a := albums[|albums| - 1];
      if a.failure.None? && a.enrichment.best.None? {
        assert BucketOf(ProcessAlbum(a)) != FailedBucket;
      }
    }
  }

  /** An unmatched album anywhere in the run is one more failure. */
  lemma {:induction false} UnmatchedCounted(albums: seq<AlbumInput>, i: nat)
    requires i < |albums| && albums[i].failure.None? && albums[i].enrichment.best.None?
    ensures CountUnmatched(albums) >= 1
  {
    if i < |albums| - 1 {
      UnmatchedCounted(albums[..|albums| - 1], i);
    }
  }

  /** The run `process_path` makes over the kept albums: with an album no
      source matched among them, the code as written reports more failed
      albums than the intended validation, one more per such album. */
  lemma ProcessPathFailsMoreAsWritten(albums: seq<AlbumInput>, albumFilter: string, i: nat)
    requires var kept := FilterAlbums(albums, albumFilter);
             i < |kept| && kept[i].failure.None? && kept[i].enrichment.best.None?
    ensures var kept := FilterAlbums(albums, albumFilter);
            CountBucket(ProcessAllAsWritten(kept), FailedBucket)
            == CountBucket(ProcessAll(kept), FailedBucket) + CountUnmatched(kept)
            && CountBucket(ProcessAllAsWritten(kept), FailedBucket) > CountBucket(ProcessAll(kept), FailedBucket)
  {
    var kept := FilterAlbums(albums, albumFilter);
    AsWrittenFailsUnmatched(kept);
    UnmatchedCounted(kept, i);
  }

  /** The number of results whose score lies in [lo, hi). */
  function InBand(results: seq<AlbumResult>, lo: int, hi: int): (n: nat)
    ensures n <= |results|
  {
    if results == [] then 0
    else InBand(results[..|results| - 1], lo, hi)
         + (if lo <= results[|results| - 1].Score() < hi then 1 else 0)
  }

  /** The `quality_distribution` of the summary. */
  datatype Distribution = Distribution(excellent: nat, good: nat, acceptable: nat, poor: nat)

  function DistributionOf(results: seq<AlbumResult>): (d: Distribution)
  {
    Distribution(InBand(results, 90, 101), InBand(results, 80, 90), InBand(results, 70, 80),
                 InBand(results, -1, 70))
  }

  /** Scores lie in [0, 100], so the four bands count every result once. */
  lemma {:induction false} DistributionTotal(results: seq<AlbumResult>)
    requires forall i :: 0 <= i < |results| ==> 0 <= results[i].Score() <= 100
    ensures var d := DistributionOf(results);
            d.excellent + d.good + d.acceptable + d.poor == |results|
  {
    if results != [] {
      DistributionTotal(results[..|results| - 1]);
    }
  }

  /** What `process_path` returns. */
  datatype PathOutcome =
    | PathNotFound(path: string)
    | NoAlbums
    | Summary(totalAlbums: nat, successful: nat, needsReview: nat, failed: nat, distribution: Distribution)

  /** The albums `--album` keeps: a case-insensitive substring match on the
      folder name; an empty filter keeps all. */
  function FilterAlbums(albums: seq<AlbumInput>, albumFilter: string): (kept: seq<AlbumInput>)
    ensures |kept| <= |albums|
    ensures albumFilter == [] ==> kept == albums
    ensures forall a :: a in kept ==> a in albums && (albumFilter == [] || Contains(Lower(a.folderName), Lower(albumFilter)))
  {
    if albumFilter == [] || albums == [] then albums
    else
      var rest := FilterAlbums(albums[..|albums| - 1], albumFilter);
      var last := albums[|albums| - 1];
      if Contains(Lower(last.folderName), Lower(albumFilter)) then rest + [last] else rest
  }

  /** The system's run statistics; they accumulate over the runs of one
      instance. */
  class MusicMetadataSystem {
    var albumsProcessed: nat
    var albumsSuccess: nat
    var albumsNeedsReview: nat
    var albumsFailed: nat
    var qualityScores: seq<int>

    /** The counters split the processed albums. */
    ghost predicate Valid()
      reads this
    {
      albumsSuccess + albumsNeedsReview + albumsFailed == albumsProcessed
      && forall i :: 0 <= i < |qualityScores| ==> 85 <= qualityScores[i] <= 100
    }

    constructor()
      ensures Valid() && albumsProcessed == 0 && qualityScores == []
    {
      albumsProcessed, albumsSuccess, albumsNeedsReview, albumsFailed := 0, 0, 0, 0;
      qualityScores := [];
    }

    /** Counts one album result. */
    method Tally(r: AlbumResult)
      requires Valid() && (r.Report? ==> 0 <= r.qualityScore <= 100)
      modifies this
      ensures Valid()
      ensures albumsProcessed == old(albumsProcessed) + 1
      ensures albumsSuccess == old(albumsSuccess) + (if BucketOf(r) == SuccessBucket then 1 else 0)
      ensures albumsNeedsReview == old(albumsNeedsReview) + (if BucketOf(r) == ReviewBucket then 1 else 0)
      ensures albumsFailed == old(albumsFailed) + (if BucketOf(r) == FailedBucket then 1 else 0)
      ensures qualityScores == old(qualityScores) + (if r.Score() >= 85 then [r.Score()] else [])
    {
      if r.Score() >= 85 {
        qualityScores := qualityScores + [r.Score()];
      }
      albumsProcessed := albumsProcessed + 1;
      if r.Report? && r.success {
        albumsSuccess := albumsSuccess + 1;
      } else if r.Report? && r.requiresReview {
        albumsNeedsReview := albumsNeedsReview + 1;
      } else {
        albumsFailed := albumsFailed + 1;
      }
    }

    /** Processes the kept albums in order, counting each result. */
    method ProcessKept(kept: seq<AlbumInput>) returns (results: seq<AlbumResult>)
      requires Valid()
      modifies this
      ensures Valid() && results == ProcessAll(kept)
      ensures albumsProcessed == old(albumsProcessed) + |kept|
      ensures albumsSuccess == old(albumsSuccess) + CountBucket(results, SuccessBucket)
      ensures albumsNeedsReview == old(albumsNeedsReview) + CountBucket(results, ReviewBucket)
      ensures albumsFailed == old(albumsFailed) + CountBucket(results, FailedBucket)
    {
      results := [];
      var i := 0;
      while i < |kept|
        invariant 0 <= i <= |kept| && Valid()
        invariant results == ProcessAll(kept[..i])
        invariant albumsProcessed == old(albumsProcessed) + i
        invariant albumsSuccess == old(albumsSuccess) + CountBucket(results, SuccessBucket)
        invariant albumsNeedsReview == old(albumsNeedsReview) + CountBucket(results, ReviewBucket)
        invariant albumsFailed == old(albumsFailed) + CountBucket(results, FailedBucket)
      {
        var result := ProcessAlbum(kept[i]);
        ProcessAllStep(kept, i);
        CountSnoc(results, result);
        results := results + [result];
        Tally(result);
        i := i + 1;
      }
      assert kept[..i] == kept;
    }

    /** `process_path`: an error for a missing path, `no_albums` when the
      filter leaves nothing, else every kept album is processed and counted
      in exactly one of success, needs review and failed. */
    method ProcessPath(path: string, pathExists: bool, albums: seq<AlbumInput>, albumFilter: string)
      returns (r: PathOutcome)
      requires Valid()
      modifies this
      ensures Valid()
      ensures !pathExists ==> r == PathNotFound(path) && unchanged(this)
      ensures pathExists && FilterAlbums(albums, albumFilter) == [] ==> r == NoAlbums && unchanged(this)
      ensures pathExists && FilterAlbums(albums, albumFilter) != [] ==>
                var results := ProcessAll(FilterAlbums(albums, albumFilter));
                && albumsProcessed == old(albumsProcessed) + |results|
                && albumsSuccess == old(albumsSuccess) + CountBucket(results, SuccessBucket)
                && albumsNeedsReview == old(albumsNeedsReview) + CountBucket(results, ReviewBucket)
                && albumsFailed == old(albumsFailed) + CountBucket(results, FailedBucket)
                && r == Summary(|results|, albumsSuccess, albumsNeedsReview, albumsFailed, DistributionOf(results))
    {
      if !pathExists {
        return PathNotFound(path);
      }
      var kept := FilterAlbums(albums, albumFilter);
      if kept == [] {
        return NoAlbums;
      }
      var results := ProcessKept(kept);
      r := Summary(|results|, albumsSuccess, albumsNeedsReview, albumsFailed, DistributionOf(results));
    }
  }
}
