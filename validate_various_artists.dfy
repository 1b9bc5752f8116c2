/** The Various Artists validation script: the comparison of a local album
    folder with the MusicBrainz release found for it, and the summary of a
    whole run. Reading the audio files and querying MusicBrainz are not
    modelled: what they yield for a folder is a parameter. */
module ValidateVariousArtists {
  import opened Wrappers
  import opened Text
  import Patterns

  /** What `get_local_album_metadata` reads from a folder: its name, the
      number of audio files, for each file whether it embeds a cover, and
      whether a cover image file sits in the folder. */
  datatype LocalAlbum = LocalAlbum(folderName: string, trackCount: int, embeddedCovers: seq<bool>, hasCover: bool)

  /** What `search_musicbrainz` yields for a release it found. */
  datatype MbRelease = MbRelease(title: string, trackCount: int, releaseId: string, hasCoverArt: bool)

  /** `'ok'`, `'available_online'`, `'missing_everywhere'` and `'unknown'`. */
  datatype CoverStatus = CoverOk | AvailableOnline | MissingEverywhere | CoverUnknown

  /** The comparison dict. The entry a failed validation leaves has only its
      folder name, its error and `needs_attention`, so every other field is
      optional. */
  datatype Comparison = Comparison(
    folderName: string,
    titleMatch: Option<bool>, titleLocal: Option<string>, titleCorrect: Option<string>,
    trackCountMatch: Option<bool>, trackCountLocal: Option<int>, trackCountCorrect: Option<int>,
    coverStatus: Option<CoverStatus>, needsAttention: bool, error: Option<string>,
    musicbrainzId: Option<string>)

  const NotFoundError: string := "Not found in MusicBrainz"

  // ------------------------------------------------------- compare_albums

  /** `\s*\[?<kw>\s+\d+\]?$` (with `bracket`) or `\s*<kw>\s+\d+$` (without),
      matched from `q` to the end of `t`; `kw` is matched as written, the
      text being lower-cased already. */
  predicate DiscTailAt(t: string, q: nat, kw: string, bracket: bool) {
    q <= |t| &&
    var u := t[q..];
    var a := |LeadingSpaces(u)|;
    var b := if bracket && a < |u| && u[a] == '[' then a + 1 else a;
    b + |kw| <= |u| && u[b..b + |kw|] == kw &&
    var s := |LeadingSpaces(u[b + |kw|..])|;
    var c := b + |kw| + s;
    var d := |LeadingDigits(u[c..])|;
    s > 0 && d > 0 && (c + d == |u| || (bracket && c + d + 1 == |u| && u[c + d] == ']'))
  }

  predicate DiscTail(t: string, q: nat) { DiscTailAt(t, q, "disc", true) }
  predicate DiskTail(t: string, q: nat) { DiscTailAt(t, q, "disk", false) }

  /** The local title as compared: lower-cased, stripped, and with a
      trailing "disc N" (optionally bracketed) and then a trailing "disk N" cut. */
  function NormalizedLocal(folderName: string): (r: string)
    ensures r <= Strip(Lower(folderName))
  {
    var n := Strip(Lower(folderName));
    var a := Patterns.CutTail(n, DiscTail);
    var b := Patterns.CutTail(a, DiskTail);
    assert b <= a <= n;
    b
  }

  /** The two titles are equal, or either contains the other. */
  predicate TitlesMatch(local: string, mb: string) {
    local == mb || Contains(mb, local) || Contains(local, mb)
  }

  /** Some audio file embeds a cover. */
  predicate AnyEmbedded(embedded: seq<bool>) {
    exists i :: 0 <= i < |embedded| && embedded[i]
  }

  function CoverStatusOf(local: LocalAlbum, mb: MbRelease): (s: CoverStatus)
    ensures s == CoverOk <==> AnyEmbedded(local.embeddedCovers) || local.hasCover
    ensures s == AvailableOnline <==> !AnyEmbedded(local.embeddedCovers) && !local.hasCover && mb.hasCoverArt
    ensures s != CoverUnknown
  {
    if AnyEmbedded(local.embeddedCovers) || local.hasCover then CoverOk
    else if mb.hasCoverArt then AvailableOnline
    else MissingEverywhere
  }

  /** `compare_albums(local, musicbrainz)`. Without a release the titles and
      counts are not compared, the album needs attention and the error says
      it was not found; with one, the album needs attention exactly when its
      title or track count does not match or it has no cover of its own. */
  function CompareAlbums(local: LocalAlbum, mb: Option<MbRelease>): (c: Comparison)
    ensures c.folderName == local.folderName && c.titleLocal == Some(local.folderName)
    ensures c.trackCountLocal == Some(local.trackCount)
    ensures mb.None? ==> c.titleMatch.None? && c.trackCountMatch.None? && c.titleCorrect.None?
    ensures mb.None? ==> c.needsAttention && c.error == Some(NotFoundError) && c.coverStatus == Some(CoverUnknown)
    ensures mb.Some? ==> c.error.None? && c.titleCorrect == Some(mb.value.title) && c.musicbrainzId == Some(mb.value.releaseId)
    ensures mb.Some? ==> c.titleMatch == Some(TitlesMatch(NormalizedLocal(local.folderName), Strip(Lower(mb.value.title))))
    ensures mb.Some? ==> c.trackCountMatch == Some(local.trackCount == mb.value.trackCount)
    ensures mb.Some? ==> c.coverStatus == Some(CoverStatusOf(local, mb.value))
    ensures mb.Some? ==> (c.needsAttention <==>
      c.titleMatch == Some(false) || c.trackCountMatch == Some(false) || c.coverStatus != Some(CoverOk))
  {
    if mb.None? then
      Comparison(local.folderName, None, Some(local.folderName), None, None, Some(local.trackCount), None,
                 Some(CoverUnknown), true, Some(NotFoundError), None)
    else
      var r := mb.value;
      var titleMatch := TitlesMatch(NormalizedLocal(local.folderName), Strip(Lower(r.title)));
      var countMatch := local.trackCount == r.trackCount;
      var cover := CoverStatusOf(local, r);
      Comparison(local.folderName, Some(titleMatch), Some(local.folderName), Some(r.title),
                 Some(countMatch), Some(local.trackCount), Some(r.trackCount), Some(cover),
                 !titleMatch || !countMatch || cover != CoverOk, None, Some(r.releaseId))
  }

  /** A folder named exactly as the release (up to letter case and outer
      blanks) has a matching title: cutting a disc suffix leaves a prefix of
      the release title. */
  lemma SameNameMatches(local: LocalAlbum, mb: MbRelease)
    requires Strip(Lower(local.folderName)) == Strip(Lower(mb.title))
    ensures CompareAlbums(local, Some(mb)).titleMatch == Some(true)
  {
    var l := NormalizedLocal(local.folderName);
    assert OccursAt(Strip(Lower(mb.title)), l, 0);
    ContainsAt(Strip(Lower(mb.title)), l, 0);
  }

  /** An album whose title and track count match and which has a cover of its own needs no attention. */
  lemma PerfectMatch(local: LocalAlbum, mb: MbRelease)
    requires Strip(Lower(local.folderName)) == Strip(Lower(mb.title))
    requires local.trackCount == mb.trackCount && local.hasCover
    ensures !CompareAlbums(local, Some(mb)).needsAttention
  {
    SameNameMatches(local, mb);
  }

  // -------------------------------------------------- validate_all_albums

  /** What reading a folder's files and searching MusicBrainz yield for it:
      the file facts and the release found, or the message of the exception
      raised on the way. */
  datatype Evidence = Evidence(trackCount: int, embeddedCovers: seq<bool>, hasCover: bool, release: Option<MbRelease>)

  /** The entry of one folder: its comparison, or the error entry. */
  function Entry(folder: string, e: Result<Evidence, string>): (c: Comparison)
    ensures c.folderName == folder
    ensures e.Err? ==> c.needsAttention && c.error == Some(e.error)
  {
    match e
    case Ok(ev) => CompareAlbums(LocalAlbum(folder, ev.trackCount, ev.embeddedCovers, ev.hasCover), ev.release)
    case Err(msg) => Comparison(folder, None, None, None, None, None, None, None, true, Some(msg), None)
  }

  /** The counts of the validation summary. */
  datatype Summary = Summary(
    total: nat, needsAttention: nat, titleMismatches: nat, trackMismatches: nat, missingCovers: nat, notFound: nat)

  /** The number of entries satisfying `p`. */
  function Count(results: seq<Comparison>, p: Comparison -> bool): (n: nat)
    ensures n <= |results|
  {
    if results == [] then 0
    else Count(results[..|results| - 1], p) + (if p(results[|results| - 1]) then 1 else 0)
  }

  predicate NeedsAttention(c: Comparison) { c.needsAttention }
  predicate TitleMismatch(c: Comparison) { c.titleMatch == Some(false) }
  predicate TrackMismatch(c: Comparison) { c.trackCountMatch == Some(false) }
  predicate MissingCover(c: Comparison) { c.coverStatus == Some(AvailableOnline) }
  predicate NotFound(c: Comparison) { c.error.Some? && Contains(c.error.value, "Not found") }

  /** The summary buckets of `validate_all_albums`. */
  function Summarize(results: seq<Comparison>): Summary {
    Summary(|results|, Count(results, NeedsAttention), Count(results, TitleMismatch),
            Count(results, TrackMismatch), Count(results, MissingCover), Count(results, NotFound))
  }

  /** Counting a weaker condition never gives fewer entries. */
  lemma {:induction false} CountMonotone(results: seq<Comparison>, p: Comparison -> bool, q: Comparison -> bool)
    requires forall i :: 0 <= i < |results| && p(results[i]) ==> q(results[i])
    ensures Count(results, p) <= Count(results, q)
  {
    if results != [] {
      CountMonotone(results[..|results| - 1], p, q);
    }
  }

  /** An entry the run produced flags attention whenever it falls in one of
      the mismatch buckets. */
  predicate Flagged(c: Comparison) {
    (TitleMismatch(c) || TrackMismatch(c) || MissingCover(c)) ==> c.needsAttention
  }

  lemma EntryFlagged(folder: string, e: Result<Evidence, string>)
    ensures Flagged(Entry(folder, e))
  {
  }

  /** The entries of a run, one per folder, in listing order. */
  function Entries(folders: seq<string>, lookup: string -> Result<Evidence, string>): (rs: seq<Comparison>)
    ensures |rs| == |folders|
    ensures forall i :: 0 <= i < |folders| ==> rs[i] == Entry(folders[i], lookup(folders[i]))
  {
    seq(|folders|, i requires 0 <= i < |folders| => Entry(folders[i], lookup(folders[i])))
  }

  /** `validate_all_albums` over the listed folders: one entry per folder,
      and a summary in which each mismatch bucket is part of the
      needs-attention bucket, so the perfect matches (total minus those
      needing attention) are never negative. */
  method ValidateAllAlbums(folders: seq<string>, lookup: string -> Result<Evidence, string>)
    returns (results: seq<Comparison>, summary: Summary)
    ensures results == Entries(folders, lookup)
    ensures summary == Summarize(results)
    ensures summary.total == |folders|
    ensures summary.needsAttention <= summary.total
    ensures summary.titleMismatches <= summary.needsAttention
    ensures summary.trackMismatches <= summary.needsAttention
    ensures summary.missingCovers <= summary.needsAttention
  {
    results := CompareAll(folders, f => Entry(f, lookup(f)));
    summary := Summarize(results);
    forall k | 0 <= k < |results| ensures Flagged(results[k]) {
      EntryFlagged(folders[k], lookup(folders[k]));
    }
    SummaryBounds(results);
  }

  /** The loop of `validate_all_albums`: one entry per folder, in order;
      `compare` is what the loop body does to one folder. */
  method CompareAll(folders: seq<string>, compare: string -> Comparison)
    returns (results: seq<Comparison>)
    ensures |results| == |folders|
    ensures forall k :: 0 <= k < |folders| ==> results[k] == compare(folders[k])
  {
    results := [];
    var i := 0;
    while i < |folders|
      invariant 0 <= i <= |folders|
      invariant |results| == i
      invariant forall k :: 0 <= k < i ==> results[k] == compare(folders[k])
    {
      results := results + [compare(folders[i])];
      i := i + 1;
    }
  }

  /** When every flagged entry needs attention, each mismatch count is part
      of the needs-attention count. */
  lemma SummaryBounds(results: seq<Comparison>)
    requires forall k :: 0 <= k < |results| ==> Flagged(results[k])
    ensures Summarize(results).needsAttention <= |results|
    ensures Summarize(results).titleMismatches <= Summarize(results).needsAttention
    ensures Summarize(results).trackMismatches <= Summarize(results).needsAttention
    ensures Summarize(results).missingCovers <= Summarize(results).needsAttention
  {
    CountMonotone(results, TitleMismatch, NeedsAttention);
    CountMonotone(results, TrackMismatch, NeedsAttention);
    CountMonotone(results, MissingCover, NeedsAttention);
  }
}
