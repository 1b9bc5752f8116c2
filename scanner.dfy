/** The scanner agent: catalogues one album folder — its tracks, where its
    cover comes from, whether it spans several discs, and the issues worth
    flagging. Reading a file's tags (a tag library) is the `read`
    parameter, the folder is given by its listing and by which file names
    it holds, and the order `sorted()` puts paths in is the `sortPaths`
    parameter. */
module Scanner {
  import opened Wrappers
  import opened Text
  import Json
  import State
  import Fixer

  const AudioExtensions: set<string> := {".mp3", ".flac", ".m4a", ".mp4", ".ogg", ".wav", ".wma", ".aac"}

  /** The folder cover files looked for, in order of preference. */
  const CoverFilenames: seq<string> :=
    ["cover.jpg", "cover.png", "folder.jpg", "folder.png", "album.jpg", "album.png", "front.jpg", "front.png"]

  // ------------------------------------------------------------ tag values

  /** A raw tag value as the tag library hands it over: absent, a string,
      an integer, or a list of values. */
  datatype TagValue = NoTag | TagText(s: string) | TagNumber(n: int) | TagList(items: seq<TagValue>)

  /** Python truthiness of a tag value. */
  predicate Truthy(v: TagValue) {
    match v
    case NoTag => false
    case TagText(s) => s != []
    case TagNumber(n) => n != 0
    case TagList(items) => items != []
  }

  /** `_get_first`: the first element of a list (nothing for an empty
      list); any other value as it is. */
  function GetFirst(v: TagValue): (r: TagValue)
    ensures v.TagList? && v.items != [] ==> r == v.items[0]
    ensures v.TagList? && v.items == [] ==> r == NoTag
    ensures !v.TagList? ==> r == v
  {
    if v.TagList? then (if v.items == [] then NoTag else v.items[0]) else v
  }

  /** `_parse_track_number`: a falsy value is no number; of a list only the
      first element counts; an integer is taken as it is; text is cut at
      the first '/' ("7/12") and parsed with `int()`. */
  function ParseTrackNumber(v: TagValue): (r: Option<int>)
    ensures !Truthy(v) ==> r == None
    ensures v.TagNumber? && v.n != 0 ==> r == Some(v.n)
    ensures v.TagList? && v.items != [] && v.items[0].TagNumber? ==> r == Some(v.items[0].n)
  {
    if !Truthy(v) then None
    else
      var w := if v.TagList? then v.items[0] else v;
      match w
      case TagNumber(n) => Some(n)
      case TagText(s) => ParseInt(if '/' in s then BeforeFirst(s, '/') else s)
      case _ => None
  }

  /** "N/M" is track N. */
  lemma ParseTrackOfTotal(n: nat, total: string)
    ensures ParseTrackNumber(TagText(NatToString(n) + "/" + total)) == Some(n)
  {
    var s := NatToString(n);
    NatToStringValue(n);
    assert '/' !in s by {
      forall i | 0 <= i < |s| ensures s[i] != '/' {
        assert IsDigit(s[i]);
      }
    }
    ParseBeforeSlash(s, total);
    ParseNatToString(n);
  }

  /** Text "A/B" with no '/' in A parses as A alone. */
  lemma ParseBeforeSlash(s: string, total: string)
    requires '/' !in s && s != []
    ensures ParseTrackNumber(TagText(s + "/" + total)) == ParseInt(s)
  {
    var t := s + "/" + total;
    assert t == s + ['/'] + total;
    assert t[|s|] == '/';
    BeforeFirstOfJoin(s, '/', total);
    TextTrackNumber(t);
  }

  /** Non-empty text parses as what comes before its first '/'. */
  lemma TextTrackNumber(t: string)
    requires t != []
    ensures ParseTrackNumber(TagText(t)) == ParseInt(if '/' in t then BeforeFirst(t, '/') else t)
  {
  }

  /** Text holding no digit is no number. */
  lemma ParseTrackOfNonNumeric(s: string)
    requires forall i :: 0 <= i < |s| ==> !IsDigit(s[i])
    ensures ParseTrackNumber(TagText(s)) == None
  {
    var t := if '/' in s then BeforeFirst(s, '/') else s;
    var u := Strip(t);
    assert forall x :: x in u ==> x in s by {
      forall x | x in u ensures x in s {
        assert x in t;
        if '/' in s {
          var i :| 0 <= i < |t| && t[i] == x;
          assert s[i] == x;
        }
      }
    }
    if u != [] {
      if u[0] == '-' || u[0] == '+' {
        if |u| > 1 {
          assert u[1] in s;
          assert !AllDigits(u[1..]) by { assert u[1..][0] == u[1]; }
        }
      } else {
        assert u[0] in s;
      }
    }
  }

  // ---------------------------------------------------------------- tracks

  /** `TrackData`. */
  datatype TrackData = TrackData(
    filepath: string, filename: string,
    title: Option<string>, artist: Option<string>, album: Option<string>, albumArtist: Option<string>,
    trackNumber: Option<int>, discNumber: Option<int>, year: Option<string>, genre: Option<string>,
    hasCover: bool, durationMs: Option<int>, issues: seq<string>)

  /** A string field that is set and not empty. */
  predicate Present(o: Option<string>) { o.Some? && o.value != [] }

  /** A number field that is set and not zero. */
  predicate Numbered(o: Option<int>) { o.Some? && o.value != 0 }

  datatype TrackIssue = MissingTitle | MissingArtist | MissingTrackNumber {
    function Name(): string {
      match this
      case MissingTitle => "missing_title"
      case MissingArtist => "missing_artist"
      case MissingTrackNumber => "missing_track_number"
    }
  }

  /** `_identify_track_issues`. */
  function TrackIssues(t: TrackData): (issues: seq<TrackIssue>)
    ensures MissingTitle in issues <==> !Present(t.title)
    ensures MissingArtist in issues <==> !Present(t.artist) && !Present(t.albumArtist)
    ensures MissingTrackNumber in issues <==> !Numbered(t.trackNumber)
    ensures forall i, j :: 0 <= i < j < |issues| ==> issues[i] != issues[j]
  {
    (if !Present(t.title) then [MissingTitle] else [])
    + (if !Present(t.artist) && !Present(t.albumArtist) then [MissingArtist] else [])
    + (if !Numbered(t.trackNumber) then [MissingTrackNumber] else [])
  }

  function IssueNames(issues: seq<TrackIssue>): (names: seq<string>)
    ensures |names| == |issues|
  {
    if issues == [] then [] else [issues[0].Name()] + IssueNames(issues[1..])
  }

  /** What reading one file gives: its tags, or the message of the
      exception raised while reading. */
  datatype TagRead = ReadOk(tags: TrackData) | ReadFailed(message: string)

  /** `_extract_track_metadata`: the tags read, with the path, file name
      and track issues filled in; a failed read leaves a bare track whose
      only issue is the read error. */
  function TrackOf(file: string, read: TagRead): (t: TrackData)
    ensures t.filepath == file && t.filename == Fixer.BaseName(file)
    ensures read.ReadFailed? ==> t.issues == ["read_error: " + read.message] && !t.hasCover
    ensures read.ReadOk? ==> t.issues == IssueNames(TrackIssues(read.tags)) && t.hasCover == read.tags.hasCover
  {
    match read
    case ReadOk(tags) => tags.(filepath := file, filename := Fixer.BaseName(file), issues := IssueNames(TrackIssues(tags)))
    case ReadFailed(message) =>
      TrackData(file, Fixer.BaseName(file), None, None, None, None, None, None, None, None, false, None,
                ["read_error: " + message])
  }

  // ------------------------------------------------------------ multi-disc

  /** `set(t.disc_number for t in tracks if t.disc_number)`. */
  function DiscNumbers(tracks: seq<TrackData>): set<int> {
    if tracks == [] then {}
    else
      var t := tracks[|tracks| - 1];
      DiscNumbers(tracks[..|tracks| - 1]) + (if Numbered(t.discNumber) then {t.discNumber.value} else {})
  }

  function MaxDisc(tracks: seq<TrackData>): (m: Option<int>)
    ensures m.None? <==> DiscNumbers(tracks) == {}
    ensures m.Some? ==> m.value in DiscNumbers(tracks) && forall d :: d in DiscNumbers(tracks) ==> d <= m.value
  {
    if tracks == [] then None
    else
      var t := tracks[|tracks| - 1];
      var m := MaxDisc(tracks[..|tracks| - 1]);
      if !Numbered(t.discNumber) then m
      else if m.None? || m.value < t.discNumber.value then Some(t.discNumber.value)
      else m
  }

  /** `_detect_multi_disc`: several distinct disc numbers make a multi-disc
      album whose disc count is the largest of them. */
  function DetectMultiDisc(tracks: seq<TrackData>): (r: (bool, int))
    ensures r.0 <==> |DiscNumbers(tracks)| > 1
    ensures r.0 ==> r.1 in DiscNumbers(tracks) && forall d :: d in DiscNumbers(tracks) ==> d <= r.1
    ensures !r.0 ==> r.1 == 1
  {
    var discs := DiscNumbers(tracks);
    if |discs| > 1 then (true, MaxDisc(tracks).value) else (false, 1)
  }

  // ------------------------------------------------------------ album data

  /** `AlbumData`. */
  datatype AlbumData = AlbumData(
    path: string, folderName: string, albumId: string, tracks: seq<TrackData>,
    hasCover: bool, coverSource: Option<string>, isMultiDisc: bool, discCount: int, issues: seq<IssueKind>)

  /** For each track naming an artist, the album artist or else the artist. */
  function ArtistNames(tracks: seq<TrackData>): (names: seq<string>)
    ensures |names| <= |tracks|
  {
    if tracks == [] then []
    else
      var t := tracks[0];
      (if Present(t.albumArtist) then [t.albumArtist.value] else if Present(t.artist) then [t.artist.value] else [])
      + ArtistNames(tracks[1..])
  }

  /** The album tag of each track that has one. */
  function AlbumTags(tracks: seq<TrackData>): (names: seq<string>)
    ensures forall x :: x in names <==> exists t :: t in tracks && Present(t.album) && t.album.value == x
  {
    if tracks == [] then []
    else
      (if Present(tracks[0].album) then [tracks[0].album.value] else []) + AlbumTags(tracks[1..])
  }

  /** The index of the first of `xs[..k]` whose value occurs most often. */
  function BestIndex(xs: seq<string>, k: nat): (j: nat)
    requires 0 < k <= |xs|
    ensures j < k
    ensures forall i :: 0 <= i < k ==> multiset(xs)[xs[i]] <= multiset(xs)[xs[j]]
    ensures forall i :: 0 <= i < j ==> multiset(xs)[xs[i]] < multiset(xs)[xs[j]]
  {
    if k == 1 then 0
    else
      var j := BestIndex(xs, k - 1);
      if multiset(xs)[xs[k - 1]] > multiset(xs)[xs[j]] then k - 1 else j
  }

  /** `Counter(xs).most_common(1)[0][0]`: a value occurring most often; of
      several such values, the one seen first. */
  function MostCommon(xs: seq<string>): (r: string)
    requires xs != []
    ensures r in xs
    ensures forall y :: y in xs ==> multiset(xs)[y] <= multiset(xs)[r]
    ensures forall i :: 0 <= i < |xs| && multiset(xs)[xs[i]] == multiset(xs)[r] ==> r in xs[..i + 1]
  {
    var j := BestIndex(xs, |xs|);
    assert xs[j] in xs[..j + 1];
    assert forall y :: y in xs ==> multiset(xs)[y] <= multiset(xs)[xs[j]] by {
      forall y | y in xs ensures multiset(xs)[y] <= multiset(xs)[xs[j]] {
        var i :| 0 <= i < |xs| && xs[i] == y;
      }
    }
    assert forall i :: 0 <= i < |xs| && multiset(xs)[xs[i]] == multiset(xs)[xs[j]] ==> xs[j] in xs[..i + 1] by {
      forall i | 0 <= i < |xs| && multiset(xs)[xs[i]] == multiset(xs)[xs[j]] ensures xs[j] in xs[..i + 1] {
        assert j <= i;
        assert xs[..i + 1][j] == xs[j];
      }
    }
    xs[j]
  }

  /** `AlbumData.artist`: the most frequent track artist, if any track
      names one. */
  function Artist(a: AlbumData): (r: Option<string>)
    ensures r.None? <==> ArtistNames(a.tracks) == []
    ensures r.Some? ==> r.value in ArtistNames(a.tracks)
                        && forall y :: y in ArtistNames(a.tracks) ==> multiset(ArtistNames(a.tracks))[y] <= multiset(ArtistNames(a.tracks))[r.value]
  {
    var names := ArtistNames(a.tracks);
    if names == [] then None else Some(MostCommon(names))
  }

  /** `AlbumData.title`: the most frequent album tag, or the folder name
      when no track has one. */
  function Title(a: AlbumData): (r: string)
    ensures AlbumTags(a.tracks) == [] ==> r == a.folderName
    ensures AlbumTags(a.tracks) != [] ==>
              (r in AlbumTags(a.tracks)
               && forall y :: y in AlbumTags(a.tracks) ==> multiset(AlbumTags(a.tracks))[y] <= multiset(AlbumTags(a.tracks))[r])
  {
    var names := AlbumTags(a.tracks);
    if names == [] then a.folderName else MostCommon(names)
  }

  /** `AlbumData.year`: the first track year given. */
  function Year(tracks: seq<TrackData>): (r: Option<string>)
    ensures r.Some? ==> exists i :: 0 <= i < |tracks| && tracks[i].year == r && forall j :: 0 <= j < i ==> !Present(tracks[j].year)
    ensures r.None? ==> forall t :: t in tracks ==> !Present(t.year)
  {
    if tracks == [] then None
    else if Present(tracks[0].year) then tracks[0].year
    else
      var r := Year(tracks[1..]);
      assert forall t :: t in tracks[1..] ==> t in tracks;
      if r.Some? then
        var i :| 0 <= i < |tracks[1..]| && tracks[1..][i].year == r && forall j :: 0 <= j < i ==> !Present(tracks[1..][j].year);
        assert tracks[i + 1].year == r;
        r
      else r
  }

  // ---------------------------------------------------------------- issues

  datatype IssueKind = MissingCover | TruncatedName | InconsistentAlbum | MissingGenre | MissingTracks {
    function Name(): string {
      match this
      case MissingCover => "missing_cover"
      case TruncatedName => "truncated_name"
      case InconsistentAlbum => "inconsistent_album"
      case MissingGenre => "missing_genre"
      case MissingTracks => "missing_tracks"
    }
    function Severity(): string {
      match this
      case MissingCover => "medium"
      case TruncatedName => "low"
      case InconsistentAlbum => "medium"
      case MissingGenre => "low"
      case MissingTracks => "medium"
    }
    /** The position of the check in `_identify_issues`. */
    function Rank(): nat {
      match this
      case MissingCover => 0
      case TruncatedName => 1
      case InconsistentAlbum => 2
      case MissingGenre => 3
      case MissingTracks => 4
    }
  }

  /** The track numbers given (non-zero), in track order. */
  function TrackNumbers(tracks: seq<TrackData>): (ns: seq<int>)
    ensures forall n :: n in ns <==> exists t :: t in tracks && Numbered(t.trackNumber) && t.trackNumber.value == n
  {
    if tracks == [] then []
    else (if Numbered(tracks[0].trackNumber) then [tracks[0].trackNumber.value] else []) + TrackNumbers(tracks[1..])
  }

  function MaxOf(ns: seq<int>): (m: int)
    requires ns != []
    ensures m in ns && forall n :: n in ns ==> n <= m
  {
    if |ns| == 1 then ns[0]
    else
      var m := MaxOf(ns[1..]);
      assert forall n :: n in ns[1..] ==> n in ns;
      assert forall n :: n in ns ==> n == ns[0] || n in ns[1..];
      if ns[0] > m then ns[0] else m
  }

  /** `set(range(1, max + 1)) - set(track_numbers)`. */
  function MissingNumbers(ns: seq<int>): (missing: set<int>)
    ensures forall n :: n in missing <==> ns != [] && 1 <= n <= MaxOf(ns) && n !in ns
  {
    if ns == [] then {} else set n | 1 <= n <= MaxOf(ns) && n !in ns
  }

  /** `set(t.album for t in tracks if t.album)`. */
  function AlbumNames(tracks: seq<TrackData>): set<string> {
    set t | t in tracks && Present(t.album) :: t.album.value
  }

  /** A folder name cut short by a tagging tool: 50 or more characters
      ending in "...". */
  predicate Truncated(name: string) {
    |name| >= 50 && EndsWith(name, "...")
  }

  /** No track names a genre. */
  predicate NoGenre(tracks: seq<TrackData>) {
    forall t :: t in tracks ==> !Present(t.genre)
  }

  /** Some number between 1 and the highest track number is not given. */
  predicate TrackGap(tracks: seq<TrackData>) {
    MissingNumbers(TrackNumbers(tracks)) != {}
  }

  /** The issues `_identify_issues` reports for an album: one per failed
      check, in the order of the checks. */
  predicate IssuesFit(a: AlbumData, issues: seq<IssueKind>) {
    Flags(issues, !a.hasCover, Truncated(a.folderName), |AlbumNames(a.tracks)| > 1, NoGenre(a.tracks), TrackGap(a.tracks))
  }

  /** The issue list for the five check outcomes: each kind present
      exactly when its check failed, in the order of the checks. */
  predicate Flags(issues: seq<IssueKind>, noCover: bool, truncated: bool, inconsistent: bool, noGenre: bool, gap: bool) {
    (MissingCover in issues <==> noCover)
    && (TruncatedName in issues <==> truncated)
    && (InconsistentAlbum in issues <==> inconsistent)
    && (MissingGenre in issues <==> noGenre)
    && (MissingTracks in issues <==> gap)
    && Ranked(issues)
  }

  /** Strictly in the order of the checks. */
  predicate Ranked(issues: seq<IssueKind>) {
    forall i, j :: 0 <= i < j < |issues| ==> issues[i].Rank() < issues[j].Rank()
  }

  lemma RankedAppend(issues: seq<IssueKind>, k: IssueKind)
    requires Ranked(issues) && forall x :: x in issues ==> x.Rank() < k.Rank()
    ensures Ranked(issues + [k])
  {
    var s := issues + [k];
    forall i, j | 0 <= i < j < |s| ensures s[i].Rank() < s[j].Rank() {
      assert s[i] == issues[i];
      if j == |issues| {
        assert s[i] in issues;
      }
    }
  }

  /** `_identify_issues`. */
  method IdentifyIssues(a: AlbumData) returns (issues: seq<IssueKind>)
    ensures IssuesFit(a, issues)
  {
    issues := FlagIssues(!a.hasCover, Truncated(a.folderName), |AlbumNames(a.tracks)| > 1,
                         NoGenre(a.tracks), TrackGap(a.tracks));
  }

  /** The appends of `_identify_issues`, one per failed check. */
  method FlagIssues(noCover: bool, truncated: bool, inconsistent: bool, noGenre: bool, gap: bool)
    returns (issues: seq<IssueKind>)
    ensures Flags(issues, noCover, truncated, inconsistent, noGenre, gap)
  {
    issues := [];
    issues := AppendIf(issues, noCover, MissingCover);
    issues := AppendIf(issues, truncated, TruncatedName);
    issues := AppendIf(issues, inconsistent, InconsistentAlbum);
    issues := AppendIf(issues, noGenre, MissingGenre);
    issues := AppendIf(issues, gap, MissingTracks);
  }

  /** One check of `_identify_issues`: its issue is appended when it
      failed, after every issue of an earlier check. */
  method AppendIf(issues: seq<IssueKind>, failed: bool, k: IssueKind) returns (r: seq<IssueKind>)
    requires Ranked(issues) && forall x :: x in issues ==> x.Rank() < k.Rank()
    ensures Ranked(r) && forall x :: x in r ==> x.Rank() <= k.Rank()
    ensures forall x :: x in r <==> x in issues || (failed && x == k)
  {
    r := issues;
    if failed {
      RankedAppend(issues, k);
      r := issues + [k];
    }
  }

  /** The head of a ranked list has the least rank in it. */
  lemma RankedHeadLeast(s: seq<IssueKind>, e: IssueKind)
    requires Ranked(s) && e in s
    ensures s[0].Rank() <= e.Rank()
  {
    var j :| 0 <= j < |s| && s[j] == e;
    assert j == 0 || s[0].Rank() < s[j].Rank();
  }

  lemma {:induction false} RankedUnique(x: seq<IssueKind>, y: seq<IssueKind>)
    requires Ranked(x) && Ranked(y)
    requires forall k :: k in x <==> k in y
    ensures x == y
    decreases |x| + |y|
  {
    if y != [] {
      assert y[0] in x;
    }
    if x != [] {
      assert x[0] in y;
    }
    if x != [] && y != [] {
      RankedHeadLeast(y, x[0]);
      RankedHeadLeast(x, y[0]);
      assert x[0] == y[0];
      forall k ensures k in x[1..] <==> k in y[1..] {
        assert k in x <==> k == x[0] || k in x[1..];
        assert k in y <==> k == y[0] || k in y[1..];
        if k in x[1..] {
          var n :| 1 <= n < |x| && x[n] == k;
          assert k != x[0];
        }
        if k in y[1..] {
          var n :| 1 <= n < |y| && y[n] == k;
          assert k != y[0];
        }
      }
      RankedUnique(x[1..], y[1..]);
    }
  }

  /** The checks determine the issue list completely. */
  lemma IssuesFitUnique(a: AlbumData, x: seq<IssueKind>, y: seq<IssueKind>)
    requires IssuesFit(a, x) && IssuesFit(a, y)
    ensures x == y
  {
    FlagsUnique(x, y, !a.hasCover, Truncated(a.folderName), |AlbumNames(a.tracks)| > 1, NoGenre(a.tracks), TrackGap(a.tracks));
  }

  lemma FlagsUnique(x: seq<IssueKind>, y: seq<IssueKind>, noCover: bool, truncated: bool, inconsistent: bool,
                    noGenre: bool, gap: bool)
    requires Flags(x, noCover, truncated, inconsistent, noGenre, gap) && Flags(y, noCover, truncated, inconsistent, noGenre, gap)
    ensures x == y
  {
    forall k ensures k in x <==> k in y {
      match k
      case MissingCover =>
      case TruncatedName =>
      case InconsistentAlbum =>
      case MissingGenre =>
      case MissingTracks =>
    }
    RankedUnique(x, y);
  }

  // ------------------------------------------------------- folder listing

  /** One entry of a folder listing. */
  datatype DirEntry = DirEntry(name: string, isFile: bool)

  /** `PurePath(name).suffix`: from the last dot, unless that dot starts
      or ends the name. */
  function Suffix(name: string): (r: string)
    ensures r == [] || (|r| >= 2 && r[0] == '.' && EndsWith(name, r) && |r| < |name|)
  {
    var k := LastDot(name);
    if 0 < k < |name| - 1 then name[k..] else []
  }

  function LastDot(s: string): (k: int)
    ensures -1 <= k < |s|
    ensures k >= 0 ==> s[k] == '.'
    ensures forall j :: k < j < |s| ==> s[j] != '.'
  {
    if s == [] then -1
    else if s[|s| - 1] == '.' then |s| - 1
    else LastDot(s[..|s| - 1])
  }

  predicate IsAudio(e: DirEntry, extensions: set<string>) {
    e.isFile && Lower(Suffix(e.name)) in extensions
  }

  /** The audio files of a listing, as paths under `folder`, in listing
      order. */
  function AudioPaths(folder: string, listing: seq<DirEntry>): (r: seq<string>)
    ensures |r| <= |listing|
  {
    if listing == [] then []
    else
      var e := listing[|listing| - 1];
      AudioPaths(folder, listing[..|listing| - 1]) + (if IsAudio(e, AudioExtensions) then [Fixer.JoinPath(folder, e.name)] else [])
  }

  /** `_find_audio_files`: every file of the folder whose lower-cased
      suffix is an audio extension. */
  method FindAudioFiles(folder: string, listing: seq<DirEntry>) returns (files: seq<string>)
    ensures files == AudioPaths(folder, listing)
    ensures forall f :: f in files ==> exists e :: e in listing && IsAudio(e, AudioExtensions) && f == Fixer.JoinPath(folder, e.name)
  {
    files := [];
    for i := 0 to |listing|
      invariant files == AudioPaths(folder, listing[..i])
    {
      assert listing[..i + 1][..i] == listing[..i];
      if listing[i].isFile && Lower(Suffix(listing[i].name)) in AudioExtensions {
        files := files + [Fixer.JoinPath(folder, listing[i].name)];
      }
    }
    assert listing[..|listing|] == listing;
    AudioPathsFrom(folder, listing);
  }

  lemma {:induction false} AudioPathsFrom(folder: string, listing: seq<DirEntry>)
    ensures forall f :: f in AudioPaths(folder, listing) ==>
              exists e :: e in listing && IsAudio(e, AudioExtensions) && f == Fixer.JoinPath(folder, e.name)
  {
    if listing != [] {
      var front := listing[..|listing| - 1];
      AudioPathsFrom(folder, front);
      assert forall e :: e in front ==> e in listing;
    }
  }

  /** The first cover file name the folder holds. */
  function FolderCover(names: seq<string>, inFolder: string -> bool): (r: Option<string>)
    ensures r.Some? ==> r.value in names && inFolder(r.value)
    ensures r.None? ==> forall n :: n in names ==> !inFolder(n)
    ensures r.Some? ==> exists i :: 0 <= i < |names| && names[i] == r.value && forall j :: 0 <= j < i ==> !inFolder(names[j])
  {
    if names == [] then None
    else if inFolder(names[0]) then Some(names[0])
    else
      var r := FolderCover(names[1..], inFolder);
      assert forall n :: n in names ==> n == names[0] || n in names[1..];
      if r.Some? then
        var i :| 0 <= i < |names[1..]| && names[1..][i] == r.value && forall j :: 0 <= j < i ==> !inFolder(names[1..][j]);
        assert names[i + 1] == r.value;
        r
      else r
  }

  /** `_check_folder_cover`. */
  method CheckFolderCover(inFolder: string -> bool) returns (r: Option<string>)
    ensures r == FolderCover(CoverFilenames, inFolder)
  {
    r := FirstInFolder(CoverFilenames, inFolder);
  }

  /** The loop of `_check_folder_cover` over any list of names. */
  method FirstInFolder(names: seq<string>, inFolder: string -> bool) returns (r: Option<string>)
    ensures r == FolderCover(names, inFolder)
  {
    for i := 0 to |names|
      invariant FolderCover(names, inFolder) == FolderCover(names[i..], inFolder)
    {
      if inFolder(names[i]) {
        return Some(names[i]);
      }
      assert names[i..][1..] == names[i + 1..];
    }
    return None;
  }

  // ------------------------------------------------------------ scan_album

  predicate AnyEmbedded(tracks: seq<TrackData>) {
    exists t :: t in tracks && t.hasCover
  }

  /** The folder cover wins as cover source; otherwise the first track
      with embedded art makes the source "embedded". */
  predicate CoverFits(album: AlbumData, cover: Option<string>) {
    (cover.Some? ==> album.hasCover && album.coverSource == cover)
    && (cover.None? ==> (album.hasCover <==> AnyEmbedded(album.tracks))
                        && album.coverSource == (if AnyEmbedded(album.tracks) then Some("embedded") else None))
  }

  /** What `scan_album` builds from the folder: one track per audio file in
      the given order; the folder cover wins as cover source, else the
      first track with embedded art makes it "embedded"; the disc fields
      come from `_detect_multi_disc` and the issues from
      `_identify_issues`. */
  predicate ScannedFrom(album: AlbumData, albumPath: string, digest: string -> string, inFolder: string -> bool,
                        files: seq<string>, read: string -> TagRead)
    requires State.DigestOk(digest)
  {
    album.path == albumPath && album.folderName == Fixer.BaseName(albumPath)
    && album.albumId == State.AlbumId(digest, albumPath)
    && |album.tracks| == |files|
    && (forall i :: 0 <= i < |files| ==> album.tracks[i] == TrackOf(files[i], read(files[i])))
    && CoverFits(album, FolderCover(CoverFilenames, inFolder))
    && (album.isMultiDisc, album.discCount) == DetectMultiDisc(album.tracks)
    && IssuesFit(album, album.issues)
  }

  /** `scan_album`. */
  method ScanAlbum(albumPath: string, digest: string -> string, inFolder: string -> bool,
                   files: seq<string>, read: string -> TagRead) returns (album: AlbumData)
    requires State.DigestOk(digest)
    ensures ScannedFrom(album, albumPath, digest, inFolder, files, read)
  {
    album := AlbumData(albumPath, Fixer.BaseName(albumPath), State.AlbumId(digest, albumPath), [], false, None, false, 1, []);
    var cover := CheckFolderCover(inFolder);
    if cover.Some? {
      album := album.(hasCover := true, coverSource := cover);
    }
    album := ReadTracks(album, cover, files, read);
    var multi := DetectMultiDisc(album.tracks);
    album := album.(isMultiDisc := multi.0, discCount := multi.1);
    var issues := IdentifyIssues(album);
    album := album.(issues := issues);
  }

  /** The track loop of `scan_album`: one track per file, in order, and
      the first track with embedded art sets the cover when the folder
      has none. */
  method ReadTracks(start: AlbumData, cover: Option<string>, files: seq<string>, read: string -> TagRead)
    returns (album: AlbumData)
    requires start.tracks == []
    requires cover.Some? ==> start.hasCover && start.coverSource == cover
    requires cover.None? ==> !start.hasCover && start.coverSource.None?
    ensures album == start.(tracks := album.tracks, hasCover := album.hasCover, coverSource := album.coverSource)
    ensures |album.tracks| == |files|
    ensures forall i :: 0 <= i < |files| ==> album.tracks[i] == TrackOf(files[i], read(files[i]))
    ensures CoverFits(album, cover)
  {
    album := TrackPass(start, cover, files, file => TrackOf(file, read(file)));
  }

  /** The loop of `ReadTracks` with the reading of one file as `track`. */
  method TrackPass(start: AlbumData, cover: Option<string>, files: seq<string>, track: string -> TrackData)
    returns (album: AlbumData)
    requires start.tracks == []
    requires cover.Some? ==> start.hasCover && start.coverSource == cover
    requires cover.None? ==> !start.hasCover && start.coverSource.None?
    ensures album == start.(tracks := album.tracks, hasCover := album.hasCover, coverSource := album.coverSource)
    ensures |album.tracks| == |files|
    ensures forall i :: 0 <= i < |files| ==> album.tracks[i] == track(files[i])
    ensures CoverFits(album, cover)
  {
    var tracks: seq<TrackData> := [];
    var hasCover := start.hasCover;
    var coverSource := start.coverSource;
    for i := 0 to |files|
      invariant |tracks| == i
      invariant forall j :: 0 <= j < i ==> tracks[j] == track(files[j])
      invariant cover.Some? ==> hasCover && coverSource == cover
      invariant cover.None? ==> (hasCover <==> AnyEmbedded(tracks))
                                && coverSource == (if AnyEmbedded(tracks) then Some("embedded") else None)
    {
      var t := track(files[i]);
      ghost var before := tracks;
      tracks := tracks + [t];
      assert forall x :: x in tracks <==> x in before || x == t;
      if t.hasCover && !hasCover {
        hasCover, coverSource := true, Some("embedded");
      }
    }
    album := start.(tracks := tracks, hasCover := hasCover, coverSource := coverSource);
  }

  // --------------------------------------------------------------- process

  function OptText(o: Option<string>): Json.Value {
    if o.Some? then Json.Str(o.value) else Json.Null
  }

  function OptNumber(o: Option<int>): Json.Value {
    if o.Some? then Json.Int(o.value) else Json.Null
  }

  function TextList(xs: seq<string>): (r: seq<Json.Value>)
    ensures |r| == |xs| && forall i :: 0 <= i < |xs| ==> r[i] == Json.Str(xs[i])
  {
    if xs == [] then [] else [Json.Str(xs[0])] + TextList(xs[1..])
  }

  /** A track's record: seven keys; the filename and the per-track issue
      strings are carried over one for one, absent tags become `null`. */
  function TrackToDict(t: TrackData): (v: Json.Value)
    ensures v.Object?
    ensures v.fields.Keys == {"filename", "title", "track_number", "disc_number", "artist", "has_cover", "issues"}
    ensures v.fields["filename"] == Json.Str(t.filename)
    ensures v.fields["title"].Null? <==> t.title.None?
    ensures v.fields["track_number"].Null? <==> t.trackNumber.None?
    ensures v.fields["issues"].List? && |v.fields["issues"].items| == |t.issues|
  {
    Json.Object(map["filename" := Json.Str(t.filename), "title" := OptText(t.title),
                    "track_number" := OptNumber(t.trackNumber), "disc_number" := OptNumber(t.discNumber),
                    "artist" := OptText(t.artist), "has_cover" := Json.Bool(t.hasCover),
                    "issues" := Json.List(TextList(t.issues))])
  }

  function TracksToList(ts: seq<TrackData>): (r: seq<Json.Value>)
    ensures |r| == |ts| && forall i :: 0 <= i < |ts| ==> r[i] == TrackToDict(ts[i])
  {
    if ts == [] then [] else [TrackToDict(ts[0])] + TracksToList(ts[1..])
  }

  /** An issue record: its type, its severity and its message. The two
      messages whose source appends a printed Python set or list keep only
      the text before that tail. */
  function IssueToDict(k: IssueKind, folderName: string): (v: Json.Value)
    ensures v.Object? && v.fields.Keys == {"type", "severity", "message"}
    ensures v.fields["type"] == Json.Str(k.Name())
    ensures v.fields["severity"] == Json.Str("low") <==> k == TruncatedName || k == MissingGenre
    ensures v.fields["severity"] == Json.Str("medium") <==> !(k == TruncatedName || k == MissingGenre)
    ensures v.fields["message"].Str? && v.fields["message"].s != []
    ensures k == TruncatedName ==>
              var m := v.fields["message"].s;
              |folderName| <= |m| && m[|m| - |folderName|..] == folderName
  {
    var message := match k
      case MissingCover => "Album has no cover art"
      case TruncatedName => "Folder name appears truncated: " + folderName
      case InconsistentAlbum => "Multiple album names found"
      case MissingGenre => "No genre metadata found"
      case MissingTracks => "Missing track numbers";
    Json.Object(map["type" := Json.Str(k.Name()), "severity" := Json.Str(k.Severity()), "message" := Json.Str(message)])
  }

  function IssuesToList(ks: seq<IssueKind>, folderName: string): (r: seq<Json.Value>)
    ensures |r| == |ks| && forall i :: 0 <= i < |ks| ==> r[i] == IssueToDict(ks[i], folderName)
  {
    if ks == [] then [] else [IssueToDict(ks[0], folderName)] + IssuesToList(ks[1..], folderName)
  }

  /** `AlbumData.to_dict`; its keys are stated by `AlbumToDictKeys`. The
      issue and track lists hold one record per issue and per track, in
      order (by the contracts of `IssuesToList` and `TracksToList`). */
  function AlbumToDict(a: AlbumData): (d: Json.Obj)
    ensures "issues" in d && d["issues"] == Json.List(IssuesToList(a.issues, a.folderName))
    ensures "tracks" in d && d["tracks"] == Json.List(TracksToList(a.tracks))
  {
    map["album_id" := Json.Str(a.albumId), "path" := Json.Str(a.path), "folder_name" := Json.Str(a.folderName),
        "title" := Json.Str(Title(a)), "artist" := OptText(Artist(a)), "year" := OptText(Year(a.tracks)),
        "track_count" := Json.Int(|a.tracks|), "has_cover" := Json.Bool(a.hasCover),
        "cover_source" := OptText(a.coverSource), "is_multi_disc" := Json.Bool(a.isMultiDisc),
        "disc_count" := Json.Int(a.discCount), "issues" := Json.List(IssuesToList(a.issues, a.folderName)),
        "tracks" := Json.List(TracksToList(a.tracks))]
  }

  /** An album record has exactly the thirteen keys of `to_dict`. */
  lemma AlbumToDictKeys(a: AlbumData)
    ensures AlbumToDict(a).Keys == {"album_id", "path", "folder_name", "title", "artist", "year", "track_count",
                                    "has_cover", "cover_source", "is_multi_disc", "disc_count", "issues", "tracks"}
  {
  }

  /** What `process` returns. */
  datatype ScanOutcome =
    | ScanFailed(error: string)
    | Scanned(path: string, albumId: string, trackCount: nat, hasCover: bool, issueCount: nat, data: AlbumData)

  /** `process`: an item without a path is an error; a folder that cannot
      be listed is an error carrying the exception's message; otherwise the
      album is scanned, saved as SCANNED and summarised. */
  method Process(store: State.StateStore, albumPath: string, listing: Result<seq<DirEntry>, string>,
                 inFolder: string -> bool, sortPaths: seq<string> -> seq<string>, read: string -> TagRead, now: string)
    returns (out: ScanOutcome)
    requires State.DigestOk(store.digest)
    modifies store`albums
    ensures albumPath == [] ==> out == ScanFailed("No path provided")
    ensures albumPath != [] && listing.Err? ==> out == ScanFailed(listing.error)
    ensures out.ScanFailed? ==> store.albums == old(store.albums)
    ensures albumPath != [] && listing.Ok? ==>
              out.Scanned? && out.path == albumPath
              && ScannedFrom(out.data, albumPath, store.digest, inFolder, sortPaths(AudioPaths(albumPath, listing.value)), read)
    ensures out.Scanned? ==>
              out.albumId == out.data.albumId && out.trackCount == |out.data.tracks|
              && out.hasCover == out.data.hasCover && out.issueCount == |out.data.issues|
              && var id := State.AlbumId(store.digest, albumPath);
                 store.albums == old(store.albums)[id := State.SavedRecord(old(store.GetAlbumState(albumPath)), id,
                                                                          albumPath, "SCANNED", AlbumToDict(out.data), now)]
  {
    if albumPath == [] {
      return ScanFailed("No path provided");
    }
    if listing.Err? {
      return ScanFailed(listing.error);
    }
    var files := FindAudioFiles(albumPath, listing.value);
    var album := ScanAlbum(albumPath, store.digest, inFolder, sortPaths(files), read);
    store.SaveAlbumState(albumPath, "SCANNED", AlbumToDict(album), now);
    out := Scanned(albumPath, album.albumId, |album.tracks|, album.hasCover, |album.issues|, album);
  }
}
