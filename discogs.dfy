/** The Discogs adapter, on both of its paths (the discogs_client library
    and the plain HTTP API): the "Artist - Title" split, the `M:SS`
    duration parse, which tracklist entries become tracks and how they are
    numbered, the cover choice, and how responses become album matches.
    What a client or HTTP call returns is a parameter, `None` when the call
    raised. */
module Discogs {
  import opened Wrappers
  import opened Text
  import opened SourceBase
  import opened SourceCommon

  // ------------------------------------------------------ "Artist - Title"

  const Separator := " - "

  /** `full.split(" - ", 1)` when the separator occurs; otherwise the
      artist is "Various Artists" and the title the whole string. Returns
      (artist, title). */
  function SplitTitle(full: string): (r: (string, string))
    ensures !Contains(full, Separator) ==> r == ("Various Artists", full)
    ensures Contains(full, Separator) ==> full == r.0 + Separator + r.1
    ensures Contains(full, Separator) ==> forall j :: 0 <= j < |r.0| ==> !OccursAt(full, Separator, j)
  {
    var k := Find(full, Separator);
    if k < 0 then ("Various Artists", full)
    else
      assert full[k..k + 3] == Separator;
      assert full == full[..k] + full[k..k + 3] + full[k + 3..];
      (full[..k], full[k + 3..])
  }

  /** An artist without a hyphen and a title joined by the separator split
      back into the two. */
  lemma SplitTitleJoin(artist: string, title: string)
    requires '-' !in artist
    ensures SplitTitle(artist + Separator + title) == (artist, title)
  {
    var full := artist + Separator + title;
    assert OccursAt(full, Separator, |artist|) by {
      assert full[|artist|..|artist| + 3] == Separator;
    }
    forall j | 0 <= j < |artist| ensures !OccursAt(full, Separator, j) {
      if j + 1 < |artist| {
        assert full[j + 1] == artist[j + 1];
      } else {
        assert full[j + 1] == ' ';
      }
    }
    var k := Find(full, Separator);
    assert k == |artist|;
    assert full[..k] == artist;
    assert full[k + 3..] == title;
  }

  // --------------------------------------------------------------- "M:SS"

  /** The duration parse of both paths: a present, non-empty string of two
      `:`-separated integers (as Python's `int` reads them) gives
      `(M * 60 + S) * 1000` milliseconds; anything else gives `None`. */
  function ParseDuration(s: Option<string>): (ms: Option<int>)
    ensures s.None? || s == Some([]) ==> ms.None?
    ensures s.Some? && ':' !in s.value ==> ms.None?
    ensures ms.Some? ==> |SplitOn(s.value, ':')| == 2
  {
    if s.None? || s.value == [] then None else MinutesSeconds(SplitOn(s.value, ':'))
  }

  /** `(int(parts[0]) * 60 + int(parts[1])) * 1000` when there are exactly
      two parts and both are integers. */
  function MinutesSeconds(parts: seq<string>): (ms: Option<int>)
    ensures ms.Some? ==> |parts| == 2
  {
    if |parts| != 2 then None
    else
      var m, sec := ParseInt(parts[0]), ParseInt(parts[1]);
      if m.Some? && sec.Some? then Some((m.value * 60 + sec.value) * 1000) else None
  }

  lemma DigitsHaveNoColon(s: string)
    requires AllDigits(s)
    ensures ':' !in s
  {
    forall i | 0 <= i < |s| ensures s[i] != ':' {
      DigitNotSpace(s[i]);
    }
  }

  /** `"M:SS"` written out from two numbers reads back as their milliseconds. */
  lemma ParseDurationOf(m: nat, sec: nat)
    ensures ParseDuration(Some(NatToString(m) + ":" + NatToString(sec))) == Some((m * 60 + sec) * 1000)
  {
    var a, b := NatToString(m), NatToString(sec);
    var s := a + [':'] + b;
    assert a + ":" + b == s;
    DigitsHaveNoColon(a);
    DigitsHaveNoColon(b);
    SplitPair(a, ':', b);
    ParseNatToString(m);
    ParseNatToString(sec);
    MinutesSecondsOf(a, b, m, sec);
  }

  lemma MinutesSecondsOf(a: string, b: string, m: int, sec: int)
    requires ParseInt(a) == Some(m) && ParseInt(b) == Some(sec)
    ensures MinutesSeconds([a, b]) == Some((m * 60 + sec) * 1000)
  {
  }

  // ------------------------------------------------------- API tracklist

  /** One `extraartists` entry. */
  datatype Extra = Extra(role: Option<string>, name: Option<string>)

  /** `extra.get("role", "").lower() in ["vocal", "vocals", "featuring"]`. */
  predicate IsVocal(e: Extra) {
    var r := Lower(e.role.GetOr(""));
    r == "vocal" || r == "vocals" || r == "featuring"
  }

  /** The index of the first vocal credit, -1 when there is none. */
  function VocalIndex(extras: seq<Extra>): (i: int)
    ensures -1 <= i < |extras|
    ensures i >= 0 ==> IsVocal(extras[i])
    ensures forall k :: 0 <= k < |extras| && (i < 0 || k < i) ==> !IsVocal(extras[k])
  {
    if extras == [] then -1
    else if IsVocal(extras[0]) then 0
    else
      var i := VocalIndex(extras[1..]);
      assert forall k :: 1 <= k < |extras| ==> extras[k] == extras[1..][k - 1];
      if i < 0 then -1 else i + 1
  }

  /** The artist of an API track: the name on its first vocal credit. */
  function Vocalist(extras: seq<Extra>): Option<string> {
    var i := VocalIndex(extras);
    if i < 0 then None else extras[i].name
  }

  /** The loop over `extraartists` that stops at the first vocal credit. */
  method FindVocalist(extras: seq<Extra>) returns (artist: Option<string>)
    ensures artist == Vocalist(extras)
  {
    artist := None;
    var i := 0;
    while i < |extras|
      invariant 0 <= i <= |extras|
      invariant forall k :: 0 <= k < i ==> !IsVocal(extras[k])
    {
      if IsVocal(extras[i]) {
        artist := extras[i].name;
        break;
      }
      i := i + 1;
    }
  }

  /** One tracklist entry of the API: `type_` is "track", "heading" or "index". */
  datatype ApiTrack = ApiTrack(kind: Option<string>, title: Option<string>, duration: Option<string>, extras: seq<Extra>)

  predicate IsTrack(t: ApiTrack) {
    t.kind == Some("track")
  }

  /** The entries of type "track", in tracklist order. */
  function Kept(tracklist: seq<ApiTrack>): (r: seq<ApiTrack>)
    ensures |r| <= |tracklist|
    ensures forall t :: t in r ==> IsTrack(t) && t in tracklist
  {
    if tracklist == [] then []
    else
      var last := tracklist[|tracklist| - 1];
      var r := Kept(tracklist[..|tracklist| - 1]) + (if IsTrack(last) then [last] else []);
      assert forall t :: t in tracklist[..|tracklist| - 1] ==> t in tracklist;
      r
  }

  /** The number of entries of type "track". */
  function CountTracks(tracklist: seq<ApiTrack>): nat {
    if tracklist == [] then 0 else (if IsTrack(tracklist[0]) then 1 else 0) + CountTracks(tracklist[1..])
  }

  lemma {:induction false} KeptCount(tracklist: seq<ApiTrack>)
    ensures |Kept(tracklist)| == CountTracks(tracklist)
    decreases |tracklist|
  {
    if tracklist != [] {
      var n := |tracklist| - 1;
      KeptCount(tracklist[..n]);
      CountTracksSnoc(tracklist[..n], tracklist[n]);
      assert tracklist[..n] + [tracklist[n]] == tracklist;
    }
  }

  lemma {:induction false} CountTracksSnoc(s: seq<ApiTrack>, t: ApiTrack)
    ensures CountTracks(s + [t]) == CountTracks(s) + (if IsTrack(t) then 1 else 0)
  {
    if s != [] {
      assert (s + [t])[1..] == s[1..] + [t];
      CountTracksSnoc(s[1..], t);
    }
  }

  /** The track the `n`-th kept entry becomes: disc 1, its vocalist as artist. */
  function ApiTrackInfo(t: ApiTrack, n: int): TrackInfo {
    TrackInfo(t.title.GetOr(""), n, 1, ParseDuration(t.duration), Vocalist(t.extras), None)
  }

  predicate NumberedFrom(tracks: seq<TrackInfo>, kept: seq<ApiTrack>) {
    |tracks| == |kept| && forall k :: 0 <= k < |kept| ==> tracks[k] == ApiTrackInfo(kept[k], k + 1)
  }

  /** The tracklist loop of `_get_album_with_api`: entries that are not
      tracks are skipped, and each track is numbered one past the tracks
      before it. */
  method ApiTracksPass(tracklist: seq<ApiTrack>) returns (tracks: seq<TrackInfo>)
    ensures NumberedFrom(tracks, Kept(tracklist))
    ensures |tracks| == CountTracks(tracklist)
    ensures forall k :: 0 <= k < |tracks| ==> tracks[k].trackNumber == k + 1 && tracks[k].discNumber == 1
  {
    tracks := [];
    var i := 0;
    while i < |tracklist|
      invariant 0 <= i <= |tracklist|
      invariant NumberedFrom(tracks, Kept(tracklist[..i]))
    {
      var t := tracklist[i];
      assert tracklist[..i + 1][..i] == tracklist[..i];
      if IsTrack(t) {
        var artist := FindVocalist(t.extras);
        tracks := tracks + [TrackInfo(t.title.GetOr(""), |tracks| + 1, 1, ParseDuration(t.duration), artist, None)];
      }
      i := i + 1;
    }
    assert tracklist[..i] == tracklist;
    KeptCount(tracklist);
  }

  // --------------------------------------------------------------- cover

  /** One API image. */
  datatype Image = Image(kind: Option<string>, uri: Option<string>)

  /** The index of the first image of type "primary", -1 when there is none. */
  function PrimaryIndex(images: seq<Image>): (i: int)
    ensures -1 <= i < |images|
    ensures i >= 0 ==> images[i].kind == Some("primary")
    ensures forall k :: 0 <= k < |images| && (i < 0 || k < i) ==> images[k].kind != Some("primary")
  {
    if images == [] then -1
    else if images[0].kind == Some("primary") then 0
    else
      var i := PrimaryIndex(images[1..]);
      assert forall k :: 1 <= k < |images| ==> images[k] == images[1..][k - 1];
      if i < 0 then -1 else i + 1
  }

  /** The API cover: the first primary image's URI, or failing a usable one,
      the first image's URI; none without images. */
  function CoverChoice(images: seq<Image>): (r: Option<string>)
    ensures images == [] ==> r.None?
    ensures PrimaryIndex(images) >= 0 && Truthy(images[PrimaryIndex(images)].uri) ==> r == images[PrimaryIndex(images)].uri
    ensures images != [] && (PrimaryIndex(images) < 0 || !Truthy(images[PrimaryIndex(images)].uri)) ==> r == images[0].uri
  {
    var p := PrimaryIndex(images);
    var c := if p >= 0 then images[p].uri else None;
    if !Truthy(c) && images != [] then images[0].uri else c
  }

  /** The cover loop of `_get_album_with_api`, then its fallback. */
  method ChooseCover(images: seq<Image>) returns (cover: Option<string>)
    ensures cover == CoverChoice(images)
  {
    cover := None;
    var i := 0;
    while i < |images|
      invariant 0 <= i <= |images|
      invariant forall k :: 0 <= k < i ==> images[k].kind != Some("primary")
    {
      if images[i].kind == Some("primary") {
        cover := images[i].uri;
        break;
      }
      i := i + 1;
    }
    if !Truthy(cover) && images != [] {
      cover := images[0].uri;
    }
  }

  /** A release from the API. */
  datatype ApiRelease = ApiRelease(
    title: Option<string>, year: Option<int>, tracklist: seq<ApiTrack>,
    images: seq<Image>, artists: seq<Option<string>>)

  /** `_get_album_with_api(source_id)`, given the response (`None` when the
      request failed). */
  method GetAlbumWithApi(sourceId: string, response: Option<ApiRelease>) returns (r: Option<AlbumMatch>)
    ensures r.Some? <==> response.Some?
    ensures r.Some? ==> r.value.source == "discogs" && r.value.sourceId == sourceId && r.value.confidence == 1.0
    ensures r.Some? ==> r.value.trackCount == |r.value.tracks| == CountTracks(response.value.tracklist)
    ensures r.Some? ==> NumberedFrom(r.value.tracks, Kept(response.value.tracklist))
    ensures r.Some? ==> r.value.coverUrl == CoverChoice(response.value.images)
    ensures r.Some? ==> r.value.artist == LeadArtist(response.value.artists, "Various Artists")
  {
    if response.None? {
      return None;
    }
    var release := response.value;
    var tracks := ApiTracksPass(release.tracklist);
    var cover := ChooseCover(release.images);
    r := Some(AlbumMatch("discogs", sourceId, release.title.GetOr(""), LeadArtist(release.artists, "Various Artists"),
                         release.year, |tracks|, tracks, cover, 1.0));
  }

  // ------------------------------------------------------ client release

  /** A tracklist entry as the client library gives it. */
  datatype ClientTrack = ClientTrack(title: string, duration: Option<string>)

  /** A release as the client library gives it; missing attributes are
      empty lists or `None`. */
  datatype ClientRelease = ClientRelease(
    title: string, year: Option<int>, tracklist: seq<ClientTrack>, imageUris: seq<string>, artists: seq<string>)

  /** A client tracklist entry as the `n`-th track of disc 1. */
  function ClientTrackInfo(t: ClientTrack, n: nat): TrackInfo {
    TrackInfo(t.title, n, 1, ParseDuration(t.duration), None, None)
  }

  /** `_get_album_with_client(source_id)`: `None` when the id is not an
      integer or the lookup raised; otherwise every tracklist entry is a
      track, numbered from 1 on disc 1, and the cover and artist are the
      first image and the first artist. */
  method GetAlbumWithClient(sourceId: string, response: Option<ClientRelease>) returns (r: Option<AlbumMatch>)
    ensures r.Some? <==> ParseInt(sourceId).Some? && response.Some?
    ensures r.Some? ==> r.value.source == "discogs" && r.value.confidence == 1.0
    ensures r.Some? ==> r.value.trackCount == |r.value.tracks| == |response.value.tracklist|
    ensures r.Some? ==> forall k :: 0 <= k < |r.value.tracks| ==>
              r.value.tracks[k] == TrackInfo(response.value.tracklist[k].title, k + 1, 1,
                                             ParseDuration(response.value.tracklist[k].duration), None, None)
    ensures r.Some? ==> r.value.coverUrl == (if response.value.imageUris == [] then None else Some(response.value.imageUris[0]))
    ensures r.Some? ==> r.value.artist == (if response.value.artists == [] then "Various Artists" else response.value.artists[0])
  {
    if ParseInt(sourceId).None? || response.None? {
      return None;
    }
    var release := response.value;
    var tracks := NumberedPass(ClientTrackInfo, release.tracklist);
    var cover := if release.imageUris == [] then None else Some(release.imageUris[0]);
    var artist := if release.artists == [] then "Various Artists" else release.artists[0];
    r := Some(AlbumMatch("discogs", sourceId, release.title, artist, release.year, |tracks|, tracks, cover, 1.0));
  }

  // -------------------------------------------------------------- search

  /** The client search query: the title alone for "various artists",
      otherwise the artist, a blank and the title. */
  function ClientQuery(title: string, artist: string): (q: string)
    ensures IsVarious(artist) ==> q == title
    ensures !IsVarious(artist) ==> |q| == |artist| + 1 + |title| && q[|artist| + 1..] == title && q[..|artist|] == artist
  {
    if IsVarious(artist) then title
    else
      var q := artist + " " + title;
      assert q[|artist| + 1..] == title;
      q
  }

  /** One result of a client search; a result whose title is not a string
      makes building its match raise, and it is skipped. */
  datatype ClientResult = ClientResult(id: string, title: Option<string>, year: Option<int>, thumb: Option<string>)

  const ClientLimit := 20

  /** The match a client search result becomes. */
  function ClientMatch(res: ClientResult): (m: AlbumMatch)
    requires res.title.Some?
    ensures m.source == "discogs" && m.sourceId == res.id && m.confidence == 0.8 && m.trackCount == 0
    ensures (m.artist, m.title) == SplitTitle(res.title.value)
    ensures m.coverUrl == res.thumb && m.tracks == []
  {
    var split := SplitTitle(res.title.value);
    AlbumMatch("discogs", res.id, split.1, split.0, res.year, 0, [], res.thumb, 0.8)
  }

  /** The matches of the results that carry a title, in result order. */
  function ClientMatches(results: seq<ClientResult>): (ms: seq<AlbumMatch>)
    ensures |ms| <= |results|
    ensures forall m :: m in ms ==> m.source == "discogs" && m.confidence == 0.8 && m.trackCount == 0
  {
    if results == [] then []
    else
      var last := results[|results| - 1];
      ClientMatches(results[..|results| - 1]) + (if last.title.Some? then [ClientMatch(last)] else [])
  }

  /** `_search_with_client(clean_title, artist)` as `search_album` calls it:
      the title is cleaned, at most the first 20 results are read, and the
      search raising gives no matches. */
  method SearchWithClient(title: string, artist: string, results: Option<seq<ClientResult>>)
    returns (query: string, matches: seq<AlbumMatch>)
    ensures query == ClientQuery(CleanTitle(title), artist)
    ensures results.None? ==> matches == []
    ensures results.Some? ==> matches == ClientMatches(results.value[..if |results.value| < ClientLimit then |results.value| else ClientLimit])
    ensures |matches| <= ClientLimit
    ensures forall m :: m in matches ==> m.confidence == 0.8 && m.trackCount == 0
  {
    query := ClientQuery(CleanTitle(title), artist);
    if results.None? {
      return query, [];
    }
    matches := ClientPass(results.value);
  }

  /** The result loop of `_search_with_client`, which stops after 20 results. */
  method ClientPass(rs: seq<ClientResult>) returns (matches: seq<AlbumMatch>)
    ensures matches == ClientMatches(rs[..if |rs| < ClientLimit then |rs| else ClientLimit])
  {
    matches := [];
    var i := 0;
    while i < |rs|
      invariant 0 <= i <= |rs| && i <= ClientLimit
      invariant matches == ClientMatches(rs[..i])
    {
      if i >= ClientLimit {
        break;
      }
      assert rs[..i + 1][..i] == rs[..i];
      if rs[i].title.Some? {
        matches := matches + [ClientMatch(rs[i])];
      }
      i := i + 1;
    }
  }

  /** One result of an API search. */
  datatype ApiResult = ApiResult(id: string, title: Option<string>, year: Option<int>,
                                 coverImage: Option<string>, thumb: Option<string>)

  /** The match an API search result becomes: the cover is `cover_image`,
      or `thumb` when that is missing or empty. */
  function ApiMatch(res: ApiResult): (m: AlbumMatch)
    ensures m.source == "discogs" && m.sourceId == res.id && m.confidence == 0.8 && m.trackCount == 0
    ensures (m.artist, m.title) == SplitTitle(res.title.GetOr(""))
    ensures m.coverUrl == (if Truthy(res.coverImage) then res.coverImage else res.thumb)
  {
    var split := SplitTitle(res.title.GetOr(""));
    AlbumMatch("discogs", res.id, split.1, split.0, res.year, 0, [],
               if Truthy(res.coverImage) then res.coverImage else res.thumb, 0.8)
  }

  /** The request parameters of an API search: the query is the cleaned
      title, 20 results per page, and an artist filter unless the artist
      is "various artists". */
  datatype SearchParams = SearchParams(q: string, perPage: nat, artist: Option<string>)

  function ApiParams(cleanTitle: string, artist: string): (p: SearchParams)
    ensures p.q == cleanTitle && p.perPage == 20
    ensures p.artist.Some? <==> !IsVarious(artist)
    ensures p.artist.Some? ==> p.artist.value == artist
  {
    SearchParams(cleanTitle, 20, if IsVarious(artist) then None else Some(artist))
  }

  /** `_search_with_api(clean_title, artist)` as `search_album` calls it:
      every result becomes one match, in response order. */
  method SearchWithApi(title: string, artist: string, response: Option<seq<ApiResult>>)
    returns (params: SearchParams, matches: seq<AlbumMatch>)
    ensures params == ApiParams(CleanTitle(title), artist)
    ensures response.None? ==> matches == []
    ensures response.Some? ==> |matches| == |response.value|
    ensures response.Some? ==> forall k :: 0 <= k < |matches| ==> matches[k] == ApiMatch(response.value[k])
  {
    params := ApiParams(CleanTitle(title), artist);
    if response.None? {
      return params, [];
    }
    matches := MapPass(ApiMatch, response.value);
  }
}
