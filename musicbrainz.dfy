/** The MusicBrainz adapter: the search query, how search results and
    release lookups become album matches, and the Cover Art Archive URL
    with its fallback. What an HTTP call returns is a parameter, `None` when
    the request raised. */
module MusicBrainz {
  import opened Wrappers
  import opened Text
  import opened SourceBase
  import opened SourceCommon

  const CoverArtUrl := "https://coverartarchive.org"

  // -------------------------------------------------------------- search

  /** `release:"<title>" AND `. */
  function ReleaseTerm(cleanTitle: string): string {
    "release:\"" + cleanTitle + "\" AND "
  }

  const CompilationTerm: string := ['('] + "artist:\"Various Artists\" OR secondarytype:Compilation)"

  /** The query `search_album` sends: the release term, then either the
      compilation alternative (for "various artists", in any letter case)
      or an exact artist term. */
  function SearchQuery(cleanTitle: string, artist: string): (q: string)
    ensures |ReleaseTerm(cleanTitle)| < |q| && q[..|ReleaseTerm(cleanTitle)|] == ReleaseTerm(cleanTitle)
    ensures q == ReleaseTerm(cleanTitle) + CompilationTerm <==> IsVarious(artist)
  {
    var r := ReleaseTerm(cleanTitle);
    if IsVarious(artist) then
      var q := r + CompilationTerm;
      assert q[..|r|] == r;
      q
    else
      var q := r + ("artist:\"" + artist + "\"");
      assert q[..|r|] == r;
      assert q[|r|] == 'a';
      assert (r + CompilationTerm)[|r|] == '(';
      q
  }

  /** One release of a search response. */
  datatype SearchRelease = SearchRelease(
    id: string, title: Option<string>, credits: seq<Option<string>>,
    date: Option<string>, trackCount: Option<int>, score: Option<int>)

  /** The match a search result becomes: the MusicBrainz score (0 to 100)
      scaled to a confidence, no cover (that takes a separate call). */
  function SearchMatch(rel: SearchRelease): (m: AlbumMatch)
    ensures m.source == "musicbrainz" && m.sourceId == rel.id && m.title == rel.title.GetOr("")
    ensures m.confidence == (rel.score.GetOr(0) as real) / 100.0
    ensures 0 <= rel.score.GetOr(0) <= 100 ==> 0.0 <= m.confidence <= 1.0
    ensures m.artist == LeadArtist(rel.credits, "Unknown")
    ensures m.trackCount == rel.trackCount.GetOr(0) && m.tracks == [] && m.coverUrl.None?
  {
    AlbumMatch("musicbrainz", rel.id, rel.title.GetOr(""), LeadArtist(rel.credits, "Unknown"),
               ExtractYear(rel.date), rel.trackCount.GetOr(0), [], None,
               (rel.score.GetOr(0) as real) / 100.0)
  }

  /** `search_album(title, artist)`, given the search response (`None` when
      the request raised): one match per release, in response order. */
  method SearchAlbum(title: string, artist: string, response: Option<seq<SearchRelease>>)
    returns (query: string, matches: seq<AlbumMatch>)
    ensures query == SearchQuery(CleanTitle(title), artist)
    ensures response.None? ==> matches == []
    ensures response.Some? ==> |matches| == |response.value|
    ensures response.Some? ==> forall k :: 0 <= k < |matches| ==> matches[k] == SearchMatch(response.value[k])
  {
    query := SearchQuery(CleanTitle(title), artist);
    if response.None? {
      return query, [];
    }
    matches := MapPass(SearchMatch, response.value);
  }

  // ----------------------------------------------------------- get_album

  /** A recording; a track without one has an empty recording. */
  datatype Recording = Recording(title: Option<string>, credits: seq<Option<string>>, length: Option<int>)

  datatype MbTrack = MbTrack(position: Option<int>, title: Option<string>, recording: Recording)

  datatype Medium = Medium(position: Option<int>, tracks: seq<MbTrack>)

  datatype Release = Release(
    title: Option<string>, credits: seq<Option<string>>, date: Option<string>, media: seq<Medium>)

  /** The disc number of a medium: its position, 1 when missing. */
  function DiscOf(m: Medium): int {
    m.position.GetOr(1)
  }

  /** The track a medium's track becomes: the recording's title, else the
      track's own, else empty; the recording's first credited artist. */
  function ToTrack(t: MbTrack, disc: int): (r: TrackInfo)
    ensures r.discNumber == disc && r.trackNumber == t.position.GetOr(0)
    ensures r.title == t.recording.title.GetOr(t.title.GetOr(""))
    ensures r.durationMs == t.recording.length
    ensures r.artist == (if t.recording.credits == [] then None else t.recording.credits[0])
  {
    TrackInfo(t.recording.title.GetOr(t.title.GetOr("")), t.position.GetOr(0), disc, t.recording.length,
              if t.recording.credits == [] then None else t.recording.credits[0], None)
  }

  /** The tracks of one medium, in medium order. */
  function MediumTracks(m: Medium): (ts: seq<TrackInfo>)
    ensures |ts| == |m.tracks|
    ensures forall k :: 0 <= k < |ts| ==> ts[k] == ToTrack(m.tracks[k], DiscOf(m))
  {
    seq(|m.tracks|, k requires 0 <= k < |m.tracks| => ToTrack(m.tracks[k], DiscOf(m)))
  }

  /** The tracks of every medium, medium after medium. */
  function AllTracks(media: seq<Medium>): seq<TrackInfo> {
    if media == [] then [] else AllTracks(media[..|media| - 1]) + MediumTracks(media[|media| - 1])
  }

  /** The number of tracks over all media. */
  function TrackTotal(media: seq<Medium>): nat {
    if media == [] then 0 else |media[0].tracks| + TrackTotal(media[1..])
  }

  lemma {:induction false} TrackTotalSnoc(media: seq<Medium>, m: Medium)
    ensures TrackTotal(media + [m]) == TrackTotal(media) + |m.tracks|
  {
    if media != [] {
      assert (media + [m])[1..] == media[1..] + [m];
      TrackTotalSnoc(media[1..], m);
    }
  }

  /** Every track of every medium is kept. */
  lemma {:induction false} AllTracksCount(media: seq<Medium>)
    ensures |AllTracks(media)| == TrackTotal(media)
    decreases |media|
  {
    if media != [] {
      var n := |media| - 1;
      AllTracksCount(media[..n]);
      TrackTotalSnoc(media[..n], media[n]);
      assert media[..n] + [media[n]] == media;
    }
  }

  /** The media loop of `get_album`, each medium's tracks appended in turn. */
  method MediaPass(media: seq<Medium>) returns (tracks: seq<TrackInfo>)
    ensures tracks == AllTracks(media)
  {
    tracks := [];
    var i := 0;
    while i < |media|
      invariant 0 <= i <= |media|
      invariant tracks == AllTracks(media[..i])
    {
      var m := media[i];
      var disc := DiscOf(m);
      var ts := MapPass(t => ToTrack(t, disc), m.tracks);
      assert ts == MediumTracks(m);
      assert media[..i + 1][..i] == media[..i];
      tracks := tracks + ts;
      i := i + 1;
    }
    assert media[..i] == media;
  }

  /** `get_album(source_id)`, given the lookup response (`None` when the
      request raised) and the Cover Art Archive answer: every track of every
      medium, ordered by disc and then track number, counted in
      `track_count`, with confidence 1.0. */
  method GetAlbum(sourceId: string, response: Option<Release>, coverArt: Option<CoverResponse>)
    returns (r: Option<AlbumMatch>)
    ensures r.Some? <==> response.Some?
    ensures r.Some? ==> r.value.source == "musicbrainz" && r.value.sourceId == sourceId && r.value.confidence == 1.0
    ensures r.Some? ==> r.value.trackCount == |r.value.tracks| == TrackTotal(response.value.media)
    ensures r.Some? ==> r.value.tracks == SortTracks(AllTracks(response.value.media))
    ensures r.Some? ==> InDiscOrder(r.value.tracks)
    ensures r.Some? ==> multiset(r.value.tracks) == multiset(AllTracks(response.value.media))
    ensures r.Some? ==> r.value.artist == LeadArtist(response.value.credits, "Unknown")
    ensures r.Some? ==> r.value.coverUrl == CoverUrlOf(sourceId, coverArt)
  {
    if response.None? {
      return None;
    }
    var release := response.value;
    var tracks := MediaPass(release.media);
    AllTracksCount(release.media);
    var sorted := SortTracks(tracks);
    assert |sorted| == |tracks| by {
      assert |multiset(sorted)| == |multiset(tracks)|;
    }
    var cover := GetCoverUrl(sourceId, coverArt);
    r := Some(AlbumMatch("musicbrainz", sourceId, release.title.GetOr(""), LeadArtist(release.credits, "Unknown"),
                         ExtractYear(release.date), |tracks|, sorted, cover, 1.0));
  }

  // -------------------------------------------------------- get_cover_url

  datatype CoverImage = CoverImage(front: bool, thumb1200: Option<string>, large: Option<string>, image: Option<string>)

  /** A Cover Art Archive answer: its HTTP status and, when it parsed, its images. */
  datatype CoverResponse = CoverResponse(status: int, images: seq<CoverImage>)

  /** The index of the first front image, -1 when there is none. */
  function FrontIndex(images: seq<CoverImage>): (i: int)
    ensures -1 <= i < |images|
    ensures i >= 0 ==> images[i].front
    ensures forall k :: 0 <= k < |images| && (i < 0 || k < i) ==> !images[k].front
  {
    if images == [] then -1
    else if images[0].front then 0
    else
      var i := FrontIndex(images[1..]);
      assert forall k :: 1 <= k < |images| ==> images[k] == images[1..][k - 1];
      if i < 0 then -1 else i + 1
  }

  /** `thumbnails.get("1200") or thumbnails.get("large") or image.get("image")`:
      the last alternative is returned whatever it is, so this may be `None`. */
  function BestSize(img: CoverImage): (r: Option<string>)
    ensures Truthy(img.thumb1200) ==> r == img.thumb1200
    ensures !Truthy(img.thumb1200) && Truthy(img.large) ==> r == img.large
    ensures !Truthy(img.thumb1200) && !Truthy(img.large) ==> r == img.image
  {
    if Truthy(img.thumb1200) then img.thumb1200 else if Truthy(img.large) then img.large else img.image
  }

  /** `{COVER_ART_URL}/release/{id}/front-1200`. */
  function FallbackUrl(releaseId: string): string {
    CoverArtUrl + "/release/" + releaseId + "/front-1200"
  }

  /** What `get_cover_url` answers: the best size of the first front image
      of a successful answer, otherwise the fallback URL. */
  function CoverUrlOf(releaseId: string, answer: Option<CoverResponse>): (r: Option<string>)
    ensures answer.None? || answer.value.status != 200 || FrontIndex(answer.value.images) < 0 ==>
              r == Some(FallbackUrl(releaseId))
    ensures answer.Some? && answer.value.status == 200 && FrontIndex(answer.value.images) >= 0 ==>
              r == BestSize(answer.value.images[FrontIndex(answer.value.images)])
  {
    if answer.Some? && answer.value.status == 200 && FrontIndex(answer.value.images) >= 0 then
      BestSize(answer.value.images[FrontIndex(answer.value.images)])
    else Some(FallbackUrl(releaseId))
  }

  /** `get_cover_url(release_id)`, given the archive's answer (`None` when
      the request or the JSON parse raised): the image loop returns at the
      first front image, and the fallback URL follows the loop. */
  method GetCoverUrl(releaseId: string, answer: Option<CoverResponse>) returns (url: Option<string>)
    ensures url == CoverUrlOf(releaseId, answer)
  {
    if answer.Some? && answer.value.status == 200 {
      var images := answer.value.images;
      var i := 0;
      while i < |images|
        invariant 0 <= i <= |images|
        invariant forall k :: 0 <= k < i ==> !images[k].front
      {
        if images[i].front {
          return BestSize(images[i]);
        }
        i := i + 1;
      }
    }
    return Some(FallbackUrl(releaseId));
  }

  /** With no front image in a successful answer, the URL is the fallback. */
  lemma NoFrontFallsBack(releaseId: string, images: seq<CoverImage>)
    requires forall k :: 0 <= k < |images| ==> !images[k].front
    ensures CoverUrlOf(releaseId, Some(CoverResponse(200, images))) == Some(FallbackUrl(releaseId))
  {
  }
}
