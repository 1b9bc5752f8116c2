/** The Spotify adapter: its title similarity score, the search query, and
    how search results and album lookups become album matches. The Spotify
    client is not modelled: what a call returns is a parameter, `None` when
    the call raised. */
module Spotify {
  import opened Wrappers
  import opened Text
  import opened SourceBase
  import opened SourceCommon

  // ------------------------------------------------ _calculate_confidence

  /** `s.lower().strip()`. */
  function Norm(s: string): string {
    Strip(Lower(s))
  }

  /** `set(s.replace(" ", ""))`. */
  function CharSet(s: string): set<char> {
    set i | 0 <= i < |s| && s[i] != ' ' :: s[i]
  }

  lemma {:induction false} SubsetCard<T>(a: set<T>, b: set<T>)
    requires a <= b
    ensures |a| <= |b|
    decreases |b|
  {
    if a != {} {
      var x :| x in a;
      SubsetCard(a - {x}, b - {x});
    }
  }

  /** The character-overlap score: the Jaccard index of the two character
      sets, scaled by 0.8. */
  function Overlap(a: set<char>, b: set<char>): (c: real)
    ensures 0.0 <= c <= 0.8
  {
    if a == {} || b == {} then 0.0
    else
      SubsetCard(a * b, a + b);
      SubsetCard(a, a + b);
      (|a * b| as real) / (|a + b| as real) * 0.8
  }

  /** `_calculate_confidence(query, result)`: 1.0 for equal strings (after
      lower-casing and trimming), 0.95 times the length ratio when one
      contains the other, otherwise 0.8 times the character overlap. */
  function Confidence(query: string, result: string): (c: real)
    ensures 0.0 <= c <= 1.0
    ensures c == 1.0 <==> Norm(query) == Norm(result)
    ensures Norm(query) != Norm(result) ==> c <= 0.95
  {
    Score(Norm(query), Norm(result))
  }

  /** The score of two normalised strings. */
  function Score(q: string, r: string): (c: real)
    ensures 0.0 <= c <= 1.0
    ensures c == 1.0 <==> q == r
    ensures q != r ==> c <= 0.95
    ensures q != r && !Contains(r, q) && !Contains(q, r) ==> c <= 0.8
  {
    if q == r then 1.0
    else if Contains(r, q) || Contains(q, r) then LengthRatio(q, r)
    else Overlap(CharSet(q), CharSet(r))
  }

  /** `min(len) / max(len) * 0.95` for two different strings. */
  function LengthRatio(q: string, r: string): (c: real)
    requires q != r
    ensures 0.0 <= c <= 0.95
  {
    var shorter := if |q| < |r| then |q| else |r|;
    var longer := if |q| < |r| then |r| else |q|;
    assert longer > 0;
    (shorter as real) / (longer as real) * 0.95
  }

  /** The score does not depend on which string is the query. */
  lemma ConfidenceSymmetric(query: string, result: string)
    ensures Confidence(query, result) == Confidence(result, query)
  {
    ScoreSymmetric(Norm(query), Norm(result));
  }

  lemma ScoreSymmetric(q: string, r: string)
    ensures Score(q, r) == Score(r, q)
  {
    if q != r {
      LengthRatioSymmetric(q, r);
      OverlapSymmetric(CharSet(q), CharSet(r));
    }
  }

  lemma LengthRatioSymmetric(q: string, r: string)
    requires q != r
    ensures LengthRatio(q, r) == LengthRatio(r, q)
  {
  }

  lemma OverlapSymmetric(a: set<char>, b: set<char>)
    ensures Overlap(a, b) == Overlap(b, a)
  {
    assert a * b == b * a && a + b == b + a;
  }

  /** A string contained in a longer one scores its share of that length. */
  lemma ContainedScore(query: string, result: string)
    requires Norm(query) != Norm(result) && Contains(Norm(result), Norm(query))
    ensures Confidence(query, result) == (|Norm(query)| as real) / (|Norm(result)| as real) * 0.95
  {
    var q, r := Norm(query), Norm(result);
    var j := Find(r, q);
    assert |q| <= |r| by { assert OccursAt(r, q, j); }
  }

  // ------------------------------------------------------------ search_album

  /** `album:"<title>"`. */
  function AlbumTerm(cleanTitle: string): string {
    "album:\"" + cleanTitle + "\""
  }

  /** The query `search_album` sends: the album term, followed by an artist
      term unless the artist is "various artists" in any letter case. */
  function SearchQuery(cleanTitle: string, artist: string): (q: string)
    ensures |AlbumTerm(cleanTitle)| <= |q| && q[..|AlbumTerm(cleanTitle)|] == AlbumTerm(cleanTitle)
    ensures q == AlbumTerm(cleanTitle) <==> IsVarious(artist)
  {
    var a := AlbumTerm(cleanTitle);
    if IsVarious(artist) then a
    else
      var r := a + " artist:\"" + artist + "\"";
      assert |r| > |a|;
      r
  }

  /** One album of a search response; the fields missing from it are `None`
      (artists and images are lists, a missing one is empty). */
  datatype SpotifyAlbum = SpotifyAlbum(
    id: string, name: Option<string>, artists: seq<Option<string>>,
    imageUrls: seq<Option<string>>, releaseDate: Option<string>, totalTracks: Option<int>)

  /** The first (largest) image's URL. */
  function CoverOf(imageUrls: seq<Option<string>>): Option<string> {
    if imageUrls == [] then None else imageUrls[0]
  }

  /** The match one search result becomes. */
  function ToMatch(cleanTitle: string, album: SpotifyAlbum): (m: AlbumMatch)
    ensures m.source == "spotify" && m.sourceId == album.id && m.tracks == []
    ensures m.title == album.name.GetOr("")
    ensures m.artist == LeadArtist(album.artists, "Unknown")
    ensures m.trackCount == album.totalTracks.GetOr(0)
    ensures m.confidence == Confidence(cleanTitle, m.title)
  {
    var title := album.name.GetOr("");
    AlbumMatch("spotify", album.id, title, LeadArtist(album.artists, "Unknown"),
               ExtractYear(album.releaseDate), album.totalTracks.GetOr(0), [],
               CoverOf(album.imageUrls), Confidence(cleanTitle, title))
  }

  /** The matches of a search response, in response order. */
  function Matches(cleanTitle: string, albums: seq<SpotifyAlbum>): (ms: seq<AlbumMatch>)
    ensures |ms| == |albums|
    ensures forall i :: 0 <= i < |albums| ==> ms[i] == ToMatch(cleanTitle, albums[i])
  {
    seq(|albums|, i requires 0 <= i < |albums| => ToMatch(cleanTitle, albums[i]))
  }

  /** `search_album(title, artist)`, given what the search call returns
      (`None` when it raised). Returns the query sent and the matches: every
      result becomes one match, and they come highest confidence first. */
  method SearchAlbum(title: string, artist: string, response: Option<seq<SpotifyAlbum>>)
    returns (query: string, matches: seq<AlbumMatch>)
    ensures query == SearchQuery(CleanTitle(title), artist)
    ensures response.None? ==> matches == []
    ensures response.Some? ==> matches == SortByConfidence(Matches(CleanTitle(title), response.value))
    ensures ByConfidence(matches)
    ensures response.Some? ==> multiset(matches) == multiset(Matches(CleanTitle(title), response.value))
  {
    var cleanTitle := CleanTitle(title);
    query := SearchQuery(cleanTitle, artist);
    if response.None? {
      return query, [];
    }
    var found := MatchesPass(cleanTitle, response.value);
    matches := SortByConfidence(found);
  }

  /** The loop of `search_album` that appends one match per result. */
  method MatchesPass(cleanTitle: string, albums: seq<SpotifyAlbum>) returns (found: seq<AlbumMatch>)
    ensures found == Matches(cleanTitle, albums)
  {
    found := MapPass(a => ToMatch(cleanTitle, a), albums);
  }

  // --------------------------------------------------------------- get_album

  /** One track item of an album lookup. */
  datatype SpotifyTrack = SpotifyTrack(
    name: Option<string>, trackNumber: Option<int>, discNumber: Option<int>,
    durationMs: Option<int>, artists: seq<Option<string>>, isrc: Option<string>)

  /** An album lookup response. */
  datatype SpotifyRelease = SpotifyRelease(
    name: Option<string>, artists: seq<Option<string>>, imageUrls: seq<Option<string>>,
    releaseDate: Option<string>, items: seq<SpotifyTrack>)

  /** The track one item becomes: a missing title is empty, a missing track
      number 0 and a missing disc number 1; the artist is the first track
      artist's name. */
  function ToTrack(item: SpotifyTrack): (t: TrackInfo)
    ensures t.title == item.name.GetOr("") && t.durationMs == item.durationMs && t.isrc == item.isrc
    ensures t.trackNumber == item.trackNumber.GetOr(0) && t.discNumber == item.discNumber.GetOr(1)
    ensures t.artist == (if item.artists == [] then None else item.artists[0])
  {
    TrackInfo(item.name.GetOr(""), item.trackNumber.GetOr(0), item.discNumber.GetOr(1),
              item.durationMs, if item.artists == [] then None else item.artists[0], item.isrc)
  }

  function Tracks(items: seq<SpotifyTrack>): (ts: seq<TrackInfo>)
    ensures |ts| == |items|
    ensures forall i :: 0 <= i < |items| ==> ts[i] == ToTrack(items[i])
  {
    seq(|items|, i requires 0 <= i < |items| => ToTrack(items[i]))
  }

  /** `get_album(source_id)`, given the lookup response (`None` when the call
      raised). The album counts every track item, lists them ordered by
      disc and then track number, and has confidence 1.0. */
  method GetAlbum(sourceId: string, response: Option<SpotifyRelease>) returns (r: Option<AlbumMatch>)
    ensures r.Some? <==> response.Some?
    ensures r.Some? ==> r.value.source == "spotify" && r.value.sourceId == sourceId && r.value.confidence == 1.0
    ensures r.Some? ==> r.value.trackCount == |r.value.tracks| == |response.value.items|
    ensures r.Some? ==> InDiscOrder(r.value.tracks)
    ensures r.Some? ==> multiset(r.value.tracks) == multiset(Tracks(response.value.items))
    ensures r.Some? ==> r.value.tracks == SortTracks(Tracks(response.value.items))
    ensures r.Some? ==> r.value.artist == LeadArtist(response.value.artists, "Unknown")
    ensures r.Some? ==> r.value.coverUrl == CoverOf(response.value.imageUrls)
  {
    if response.None? {
      return None;
    }
    var album := response.value;
    var tracks := TracksPass(album.items);
    var sorted := SortTracks(tracks);
    assert |sorted| == |tracks| by {
      assert |multiset(sorted)| == |multiset(tracks)|;
    }
    r := Some(AlbumMatch("spotify", sourceId, album.name.GetOr(""), LeadArtist(album.artists, "Unknown"),
                         ExtractYear(album.releaseDate), |tracks|, sorted, CoverOf(album.imageUrls), 1.0));
  }

  /** The loop of `get_album` that appends one track per item. */
  method TracksPass(items: seq<SpotifyTrack>) returns (tracks: seq<TrackInfo>)
    ensures tracks == Tracks(items)
  {
    tracks := MapPass(ToTrack, items);
  }
}
