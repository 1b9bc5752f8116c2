/** The records every metadata source returns, the default helpers of the
    source base class, and its rate limiter. HTTP is not modelled; the
    clock is a parameter. */
module SourceBase {
  import opened Wrappers
  import Text
  import Json

  /** A track as a source reports it. */
  datatype TrackInfo = TrackInfo(
    title: string, trackNumber: int, discNumber: int,
    durationMs: Option<int>, artist: Option<string>, isrc: Option<string>)

  /** `TrackInfo(title, track_number)` with the dataclass defaults. */
  function NewTrack(title: string, trackNumber: int): (t: TrackInfo)
    ensures t.title == title && t.trackNumber == trackNumber
    ensures t.discNumber == 1 && t.durationMs.None? && t.artist.None? && t.isrc.None?
  {
    TrackInfo(title, trackNumber, 1, None, None, None)
  }

  /** One album found by a source. `rawData` is not modelled. */
  datatype AlbumMatch = AlbumMatch(
    source: string, sourceId: string, title: string, artist: string,
    year: Option<int>, trackCount: int, tracks: seq<TrackInfo>,
    coverUrl: Option<string>, confidence: real)

  /** `AlbumMatch(source, source_id, title, artist)` with the dataclass defaults. */
  function NewMatch(source: string, sourceId: string, title: string, artist: string): (m: AlbumMatch)
    ensures m.source == source && m.sourceId == sourceId && m.title == title && m.artist == artist
    ensures m.year.None? && m.trackCount == 0 && m.tracks == [] && m.coverUrl.None? && m.confidence == 0.0
  {
    AlbumMatch(source, sourceId, title, artist, None, 0, [], None, 0.0)
  }

  function OptStr(o: Option<string>): Json.Value {
    if o.Some? then Json.Str(o.value) else Json.Null
  }

  function OptInt(o: Option<int>): Json.Value {
    if o.Some? then Json.Int(o.value) else Json.Null
  }

  function TrackToDict(t: TrackInfo): (d: Json.Obj)
    ensures d.Keys == {"title", "track_number", "disc_number", "duration_ms", "artist"}
    ensures d["title"] == Json.Str(t.title) && d["track_number"] == Json.Int(t.trackNumber)
    ensures d["disc_number"] == Json.Int(t.discNumber)
  {
    map["title" := Json.Str(t.title), "track_number" := Json.Int(t.trackNumber),
        "disc_number" := Json.Int(t.discNumber), "duration_ms" := OptInt(t.durationMs),
        "artist" := OptStr(t.artist)]
  }

  function TracksToList(ts: seq<TrackInfo>): (vs: seq<Json.Value>)
    ensures |vs| == |ts|
    ensures forall i :: 0 <= i < |ts| ==> vs[i] == Json.Object(TrackToDict(ts[i]))
  {
    if ts == [] then [] else [Json.Object(TrackToDict(ts[0]))] + TracksToList(ts[1..])
  }

  /** `AlbumMatch.to_dict`: every field except the raw data, each track
      mapped one to one and in order. */
  function ToDict(m: AlbumMatch): (d: Json.Obj)
    ensures d.Keys == {"source", "source_id", "title", "artist", "year", "track_count",
                       "tracks", "cover_url", "confidence"}
    ensures d["title"] == Json.Str(m.title) && d["artist"] == Json.Str(m.artist)
    ensures d["track_count"] == Json.Int(m.trackCount) && d["confidence"] == Json.Real(m.confidence)
    ensures d["tracks"].List? && |d["tracks"].items| == |m.tracks|
    ensures forall i :: 0 <= i < |m.tracks| ==> d["tracks"].items[i] == Json.Object(TrackToDict(m.tracks[i]))
    ensures m.year.None? <==> d["year"] == Json.Null
    ensures m.coverUrl.None? <==> d["cover_url"] == Json.Null
  {
    map["source" := Json.Str(m.source), "source_id" := Json.Str(m.sourceId),
        "title" := Json.Str(m.title), "artist" := Json.Str(m.artist),
        "year" := OptInt(m.year), "track_count" := Json.Int(m.trackCount),
        "tracks" := Json.List(TracksToList(m.tracks)),
        "cover_url" := OptStr(m.coverUrl), "confidence" := Json.Real(m.confidence)]
  }

  /** `_extract_year`: `int()` of the first four characters of a date of at
      least four characters; none otherwise or when those do not parse. */
  function ExtractYear(date: Option<string>): (y: Option<int>)
    ensures date.None? || |date.value| < 4 ==> y.None?
    ensures y.Some? ==> Text.ParseInt(date.value[..4]) == y
  {
    if date.Some? && |date.value| >= 4 then Text.ParseInt(date.value[..4]) else None
  }

  lemma {:induction false} FourDigits(y: nat)
    requires 1000 <= y <= 9999
    ensures |Text.NatToString(y)| == 4
  {
    assert |Text.NatToString(y / 10)| == 3 by {
      assert |Text.NatToString(y / 100)| == 2 by {
        assert |Text.NatToString(y / 1000)| == 1;
      }
    }
  }

  /** A date that starts with a four-digit year yields that year, whatever follows. */
  lemma ExtractYearOfDate(y: nat, rest: string)
    requires 1000 <= y <= 9999
    ensures ExtractYear(Some(Text.NatToString(y) + rest)) == Some(y)
  {
    FourDigits(y);
    var d := Text.NatToString(y) + rest;
    assert d[..4] == Text.NatToString(y);
    Text.ParseNatToString(y);
  }

  /** The default `get_cover_url`: the cover of what `get_album` returned. */
  function CoverUrlOf(album: Option<AlbumMatch>): (r: Option<string>)
    ensures album.None? ==> r.None?
    ensures album.Some? ==> r == album.value.coverUrl
  {
    if album.Some? then album.value.coverUrl else None
  }

  /** The per-source rate limiter of `_rate_limit_wait`. The clock is the
      `now` argument; sleeping `d` seconds is taken to advance it by `d`. */
  class RateLimiter {
    const rateLimit: real
    var lastRequest: real

    constructor (rateLimit: real)
      ensures this.rateLimit == rateLimit && lastRequest == 0.0
    {
      this.rateLimit := rateLimit;
      lastRequest := 0.0;
    }

    /** Returns the sleep taken: none on the first request (no stamp yet),
        otherwise what is left of the interval. Every call restamps. */
    method Wait(now: real) returns (sleep: real)
      modifies this
      ensures old(lastRequest) <= 0.0 ==> sleep == 0.0
      ensures old(lastRequest) > 0.0 && now - old(lastRequest) < rateLimit ==>
                sleep == rateLimit - (now - old(lastRequest)) && sleep > 0.0
      ensures old(lastRequest) > 0.0 && now - old(lastRequest) >= rateLimit ==> sleep == 0.0
      ensures lastRequest == now + sleep
    {
      sleep := 0.0;
      if lastRequest > 0.0 {
        var elapsed := now - lastRequest;
        if elapsed < rateLimit {
          sleep := rateLimit - elapsed;
        }
      }
      lastRequest := now + sleep;
    }
  }
}
