// The library audit of `utilities/extract_metadata.py`: one metadata record
// per audio file, with the fields it lacks, and the records grouped into a
// per-artist, per-album library whose tracks are in play order.

module ExtractMetadata {
  import opened Wrappers
  import opened Text
  import Fixer

  // ------------------------------------------------------------ one file

  /** A field named in `missing_fields`. */
  datatype Field = ArtistField | AlbumField | TitleField | TrackNumberField | ErrorReadingFile

  function FieldName(f: Field): (r: string)
    ensures r != []
  {
    match f
    case ArtistField => "artist"
    case AlbumField => "album"
    case TitleField => "title"
    case TrackNumberField => "tracknumber"
    case ErrorReadingFile => "error_reading_file"
  }

  /** The tag values read from a file; the empty text stands for a tag the
      file does not have. */
  datatype Tags = Tags(artist: string, album: string, title: string, tracknumber: string,
                       date: string, genre: string)

  /** What reading the file's tags gave: the tags, or an exception raised
      after `partial` had been filled in. */
  datatype Read = Read(tags: Tags) | ReadError(partial: Tags, message: string)

  /** The record `extract_metadata` returns for a file. */
  datatype Metadata = Metadata(filepath: string, tags: Tags, coverArt: Option<string>,
                               missingFields: seq<Field>, error: Option<string>)

  /** The fields checked for emptiness, in the order they are listed. */
  const Checked: seq<Field> := [ArtistField, AlbumField, TitleField, TrackNumberField]

  function Value(t: Tags, f: Field): string {
    match f
    case ArtistField => t.artist
    case AlbumField => t.album
    case TitleField => t.title
    case TrackNumberField => t.tracknumber
    case ErrorReadingFile => []
  }

  /** The fields of `fs` that are empty in `t`, in the order of `fs`. */
  function MissingOf(fs: seq<Field>, t: Tags): (r: seq<Field>)
    ensures |r| <= |fs|
  {
    if fs == [] then []
    else MissingOf(fs[..|fs| - 1], t) + (if Value(t, fs[|fs| - 1]) == [] then [fs[|fs| - 1]] else [])
  }

  /** A field is listed exactly when it is checked and empty. */
  lemma {:induction false} MissingOfIff(fs: seq<Field>, t: Tags, f: Field)
    ensures f in MissingOf(fs, t) <==> f in fs && Value(t, f) == []
  {
    if fs != [] {
      MissingOfIff(fs[..|fs| - 1], t, f);
      assert fs == fs[..|fs| - 1] + [fs[|fs| - 1]];
    }
  }

  /** The listed fields keep the order of `fs`. */
  lemma {:induction false} MissingOfOrdered(fs: seq<Field>, t: Tags, i: nat, j: nat)
    requires i < j < |MissingOf(fs, t)|
    ensures exists p, q :: 0 <= p < q < |fs| && fs[p] == MissingOf(fs, t)[i] && fs[q] == MissingOf(fs, t)[j]
  {
    var init := fs[..|fs| - 1];
    var m := MissingOf(init, t);
    if j < |m| {
      MissingOfOrdered(init, t, i, j);
      var p, q :| 0 <= p < q < |init| && init[p] == m[i] && init[q] == m[j];
      assert fs[p] == init[p] && fs[q] == init[q];
    } else {
      assert m[i] in m;
      MissingOfIff(init, t, m[i]);
      var p :| 0 <= p < |init| && init[p] == m[i];
      assert fs[p] == init[p];
    }
  }

  /** `extract_metadata(filepath)`: the tags read (I/O, as `read`), the cover
      art found (I/O, as `cover`), then every checked field that is empty is
      listed; an exception while reading keeps what was read before it and
      lists only `error_reading_file`. */
  method Extract(filepath: string, read: Read, cover: Option<string>) returns (m: Metadata)
    ensures m.filepath == filepath
    ensures read.Read? ==> m == Metadata(filepath, read.tags, cover, MissingOf(Checked, read.tags), None)
    ensures read.ReadError? ==> m == Metadata(filepath, read.partial, None, [ErrorReadingFile], Some(read.message))
  {
    match read
    case ReadError(partial, message) =>
      m := Metadata(filepath, partial, None, [ErrorReadingFile], Some(message));
    case Read(tags) =>
      var missing := MissingPass(Checked, tags);
      m := Metadata(filepath, tags, cover, missing, None);
  }

  /** The loop over the checked fields, appending each empty one. */
  method MissingPass(fs: seq<Field>, t: Tags) returns (missing: seq<Field>)
    ensures missing == MissingOf(fs, t)
  {
    missing := [];
    var i := 0;
    while i < |fs|
      invariant 0 <= i <= |fs|
      invariant missing == MissingOf(fs[..i], t)
    {
      MissingOfStep(fs, t, i);
      if Value(t, fs[i]) == [] {
        missing := missing + [fs[i]];
      }
      i := i + 1;
    }
    assert fs[..i] == fs;
  }

  lemma MissingOfStep(fs: seq<Field>, t: Tags, i: nat)
    requires i < |fs|
    ensures MissingOf(fs[..i + 1], t) == MissingOf(fs[..i], t) + (if Value(t, fs[i]) == [] then [fs[i]] else [])
  {
    assert fs[..i + 1][..i] == fs[..i];
  }

  /** What `Extract` lists for a file it read: a field exactly when it is
      one of artist, album, title and tracknumber and is empty. */
  lemma ExtractListsMissing(t: Tags, f: Field)
    ensures f in MissingOf(Checked, t) <==> f != ErrorReadingFile && Value(t, f) == []
  {
    MissingOfIff(Checked, t, f);
  }

  // ----------------------------------------------------- grouping records

  const UnknownArtist := "Unknown Artist"
  const UnknownAlbum := "Unknown Album"

  /** `r.get('artist') or 'Unknown Artist'`. */
  function ArtistKey(r: Metadata): (k: string)
    ensures k != []
    ensures r.tags.artist != [] ==> k == r.tags.artist
  {
    if r.tags.artist != [] then r.tags.artist else UnknownArtist
  }

  /** `r.get('album') or 'Unknown Album'`. */
  function AlbumKey(r: Metadata): (k: string)
    ensures k != []
    ensures r.tags.album != [] ==> k == r.tags.album
  {
    if r.tags.album != [] then r.tags.album else UnknownAlbum
  }

  /** An entry of an album's `Tracks` list. */
  datatype Track = Track(trackNumber: Option<int>, title: string, filePath: string, missingFields: seq<Field>)

  /** An album of the library: the first cover art, date and genre met
      among its records, and its tracks. */
  datatype AlbumEntry = AlbumEntry(coverArt: Option<string>, date: Option<string>, genre: Option<string>,
                                   tracks: seq<Track>)

  /** Artist, then album, then the album's entry. */
  type Library = map<string, map<string, AlbumEntry>>

  /** The track number: the text before a `/` (`"3/11"` gives 3) read as an
      integer, none when that fails or the tag is empty. */
  function TrackNumberOf(raw: string): (n: Option<int>)
    ensures raw == [] ==> n == None
  {
    if raw == [] then None
    else
      var head := if '/' in raw then BeforeFirst(raw, '/') else raw;
      ParseInt(head)
  }

  lemma TrackNumberOfCount(ds: string, total: string)
    requires ds != [] && AllDigits(ds)
    ensures TrackNumberOf(ds + ("/" + total)) == Some(DigitsValue(ds) as int)
  {
    var raw := ds + ("/" + total);
    assert raw[|ds|] == '/';
    assert '/' !in ds by {
      forall i | 0 <= i < |ds| ensures ds[i] != '/' {
        assert IsDigit(ds[i]);
      }
    }
    BeforeFirstOfJoin(ds, '/', total);
    assert raw == ds + ['/'] + total;
    DigitsParse(ds);
  }

  /** A run of digits reads as its value. */
  lemma DigitsParse(ds: string)
    requires ds != [] && AllDigits(ds)
    ensures ParseInt(ds) == Some(DigitsValue(ds) as int)
  {
    DigitNotSpace(ds[0]);
    DigitNotSpace(ds[|ds| - 1]);
    assert TrimStart(ds) == ds;
    assert TrimEnd(ds) == ds;
    assert Strip(ds) == ds;
  }

  /** The track entry made from a record; a record without a title is
      named after its file. */
  function TrackOf(r: Metadata): Track {
    Track(TrackNumberOf(r.tags.tracknumber),
          if r.tags.title != [] then r.tags.title else Fixer.BaseName(r.filepath),
          r.filepath, r.missingFields)
  }

  /** The records filed under artist `a` and album `b`, in their order. */
  function Group(rs: seq<Metadata>, a: string, b: string): seq<Metadata> {
    if rs == [] then []
    else
      var r := rs[|rs| - 1];
      Group(rs[..|rs| - 1], a, b) + (if ArtistKey(r) == a && AlbumKey(r) == b then [r] else [])
  }

  /** Every record is in the group of its own artist and album. */
  lemma {:induction false} InOwnGroup(rs: seq<Metadata>, r: Metadata)
    requires r in rs
    ensures r in Group(rs, ArtistKey(r), AlbumKey(r))
  {
    var init := rs[..|rs| - 1];
    if r != rs[|rs| - 1] {
      assert rs == init + [rs[|rs| - 1]];
      assert r in init;
      InOwnGroup(init, r);
    }
  }

  /** The text of a field the record may lack; the absent cover art and an
      empty one are both treated as missing. */
  function CoverText(r: Metadata): string {
    if r.coverArt.Some? then r.coverArt.value else []
  }

  function DateText(r: Metadata): string { r.tags.date }

  function GenreText(r: Metadata): string { r.tags.genre }

  /** The first non-empty value of `field` among the records of `g`. */
  function FirstWith(g: seq<Metadata>, field: Metadata -> string): Option<string> {
    if g == [] then None
    else
      var v := FirstWith(g[..|g| - 1], field);
      if v.Some? then v
      else if field(g[|g| - 1]) != [] then Some(field(g[|g| - 1]))
      else None
  }

  /** `FirstWith` gives the value of the first record that has one, and
      none only when no record has one. */
  lemma {:induction false} FirstWithIsFirst(g: seq<Metadata>, field: Metadata -> string)
    ensures var v := FirstWith(g, field);
            (v.Some? ==> exists i :: 0 <= i < |g| && field(g[i]) == v.value && v.value != []
                           && forall j :: 0 <= j < i ==> field(g[j]) == []) &&
            (v.None? <==> forall i :: 0 <= i < |g| ==> field(g[i]) == [])
  {
    if g != [] {
      var init := g[..|g| - 1];
      FirstWithIsFirst(init, field);
      assert forall i :: 0 <= i < |init| ==> init[i] == g[i];
    }
  }

  /** The tracks of the records of `g`, in the order of the records. */
  function TracksOf(g: seq<Metadata>): (ts: seq<Track>)
    ensures |ts| == |g|
    ensures forall i :: 0 <= i < |g| ==> ts[i] == TrackOf(g[i])
  {
    if g == [] then []
    else
      var init := g[..|g| - 1];
      assert forall i :: 0 <= i < |init| ==> init[i] == g[i];
      TracksOf(init) + [TrackOf(g[|g| - 1])]
  }

  /** The entry of an album, its tracks still in the order of the records. */
  function Entry(g: seq<Metadata>): AlbumEntry {
    AlbumEntry(FirstWith(g, CoverText), FirstWith(g, DateText), FirstWith(g, GenreText), TracksOf(g))
  }

  /** The artists the records are filed under. */
  function Artists(rs: seq<Metadata>): set<string> {
    if rs == [] then {} else Artists(rs[..|rs| - 1]) + {ArtistKey(rs[|rs| - 1])}
  }

  /** The albums the records of artist `a` are filed under. */
  function Albums(rs: seq<Metadata>, a: string): set<string> {
    if rs == [] then {}
    else
      var r := rs[|rs| - 1];
      Albums(rs[..|rs| - 1], a) + (if ArtistKey(r) == a then {AlbumKey(r)} else {})
  }

  lemma {:induction false} ArtistsMembers(rs: seq<Metadata>, a: string)
    ensures a in Artists(rs) <==> exists r :: r in rs && ArtistKey(r) == a
  {
    if rs != [] {
      var init := rs[..|rs| - 1];
      ArtistsMembers(init, a);
      assert rs == init + [rs[|rs| - 1]];
    }
  }

  lemma {:induction false} AlbumsMembers(rs: seq<Metadata>, a: string, b: string)
    ensures b in Albums(rs, a) <==> exists r :: r in rs && ArtistKey(r) == a && AlbumKey(r) == b
  {
    if rs != [] {
      var init := rs[..|rs| - 1];
      AlbumsMembers(init, a, b);
      assert rs == init + [rs[|rs| - 1]];
    }
  }

  /** An album no record is filed under has no records. */
  lemma {:induction false} GroupOutside(rs: seq<Metadata>, a: string, b: string)
    requires b !in Albums(rs, a)
    ensures Group(rs, a, b) == []
  {
    if rs != [] {
      GroupOutside(rs[..|rs| - 1], a, b);
    }
  }

  /** An artist no record is filed under has no albums. */
  lemma {:induction false} AlbumsOutside(rs: seq<Metadata>, a: string)
    requires a !in Artists(rs)
    ensures Albums(rs, a) == {}
  {
    if rs != [] {
      AlbumsOutside(rs[..|rs| - 1], a);
    }
  }

  /** The albums of artist `a`, each made by `f` from its records. */
  function AlbumsWith(rs: seq<Metadata>, a: string, f: seq<Metadata> -> AlbumEntry): map<string, AlbumEntry> {
    map b | b in Albums(rs, a) :: f(Group(rs, a, b))
  }

  /** Every artist's albums, each made by `f` from its records. */
  function LibraryWith(rs: seq<Metadata>, f: seq<Metadata> -> AlbumEntry): Library {
    map a | a in Artists(rs) :: AlbumsWith(rs, a, f)
  }

  /** The library before its tracks are sorted. */
  function Collected(rs: seq<Metadata>): Library {
    LibraryWith(rs, Entry)
  }

  /** An entry with its tracks sorted. */
  function Sorted(e: AlbumEntry): AlbumEntry {
    e.(tracks := SortTracks(e.tracks))
  }

  function SortedEntry(g: seq<Metadata>): AlbumEntry {
    Sorted(Entry(g))
  }

  /** Every album of `lib` with its tracks sorted. */
  function SortAll(lib: Library): Library {
    map a | a in lib :: map b | b in lib[a] :: Sorted(lib[a][b])
  }

  /** The library `build_structured_json` returns. */
  function Structured(rs: seq<Metadata>): Library {
    LibraryWith(rs, SortedEntry)
  }

  // ------------------------------------------------------------- sorting

  /** `x['TrackNumber'] or 999`: a missing number and 0 both sort as 999. */
  function SortNumber(t: Track): (k: int)
    ensures t.trackNumber.Some? && t.trackNumber.value != 0 ==> k == t.trackNumber.value
    ensures t.trackNumber.None? || t.trackNumber.value == 0 ==> k == 999
  {
    if t.trackNumber.Some? && t.trackNumber.value != 0 then t.trackNumber.value else 999
  }

  /** The order on `(number or 999, title)`: `x` sorts strictly before `y`. */
  predicate Before(x: Track, y: Track) {
    SortNumber(x) < SortNumber(y) || (SortNumber(x) == SortNumber(y) && LexLess(x.title, y.title))
  }

  lemma BeforeAsymmetric(x: Track, y: Track)
    requires Before(x, y)
    ensures !Before(y, x)
  {
    if SortNumber(x) == SortNumber(y) {
      LexLessAsymmetric(x.title, y.title);
    }
  }

  /** A track not before `z`, which is not before `x`, is not before `x`. */
  lemma NotBeforeTransitive(y: Track, z: Track, x: Track)
    requires !Before(y, z) && !Before(z, x)
    ensures !Before(y, x)
  {
    if Before(y, x) && SortNumber(y) == SortNumber(z) && SortNumber(z) == SortNumber(x) {
      LexLessTotal(y.title, z.title);
      if LexLess(z.title, y.title) {
        LexLessTransitive(z.title, y.title, x.title);
      }
    }
  }

  predicate InPlayOrder(s: seq<Track>) {
    forall i, j :: 0 <= i < j < |s| ==> !Before(s[j], s[i])
  }

  lemma ConsInPlayOrder(a: Track, t: seq<Track>)
    requires InPlayOrder(t)
    requires forall y :: y in t ==> !Before(y, a)
    ensures InPlayOrder([a] + t)
  {
    forall i, j | 0 <= i < j < |[a] + t|
      ensures !Before(([a] + t)[j], ([a] + t)[i])
    {
      assert ([a] + t)[j] == t[j - 1];
      assert t[j - 1] in t;
      if i > 0 { assert ([a] + t)[i] == t[i - 1]; }
    }
  }

  lemma HeadFirst(s: seq<Track>, x: Track, t: seq<Track>)
    requires InPlayOrder(s) && s != [] && Before(s[0], x)
    requires multiset(t) == multiset(s[1..]) + multiset{x}
    ensures forall y :: y in t ==> !Before(y, s[0])
  {
    forall y | y in t ensures !Before(y, s[0]) {
      assert y in multiset(t);
      if y == x {
        BeforeAsymmetric(s[0], x);
      } else {
        assert y in multiset(s[1..]);
        var k :| 0 <= k < |s[1..]| && s[1..][k] == y;
        assert s[k + 1] == y;
      }
    }
  }

  /** `x` placed before the first track that does not sort before it. */
  function InsertTrack(x: Track, s: seq<Track>): (r: seq<Track>)
    requires InPlayOrder(s)
    ensures InPlayOrder(r)
    ensures multiset(r) == multiset(s) + multiset{x}
  {
    if s == [] || !Before(s[0], x) then
      forall y | y in s ensures !Before(y, x) {
        var j :| 0 <= j < |s| && s[j] == y;
        if j > 0 {
          NotBeforeTransitive(y, s[0], x);
        }
      }
      ConsInPlayOrder(x, s);
      [x] + s
    else
      var t := InsertTrack(x, s[1..]);
      HeadFirst(s, x, t);
      ConsInPlayOrder(s[0], t);
      assert multiset([s[0]] + t) == multiset(s) + multiset{x} by {
        assert s == [s[0]] + s[1..];
      }
      [s[0]] + t
  }

  /** The tracks of `s` with number key `k` and title `title`, in their order in `s`. */
  function Tied(s: seq<Track>, k: int, title: string): (r: seq<Track>)
    ensures forall x :: x in r ==> x in s && SortNumber(x) == k && x.title == title
  {
    if s == [] then []
    else (if SortNumber(s[0]) == k && s[0].title == title then [s[0]] else []) + Tied(s[1..], k, title)
  }

  function Ties(x: Track, k: int, title: string): seq<Track> {
    if SortNumber(x) == k && x.title == title then [x] else []
  }

  lemma TiedCons(a: Track, t: seq<Track>, k: int, title: string)
    ensures Tied([a] + t, k, title) == Ties(a, k, title) + Tied(t, k, title)
  {
    assert ([a] + t)[1..] == t;
  }

  /** Inserting `x` puts it first among the tracks tied with it and leaves
      every other tie as it was. */
  lemma {:induction false} InsertTrackTies(x: Track, s: seq<Track>, k: int, title: string)
    requires InPlayOrder(s)
    ensures Tied(InsertTrack(x, s), k, title) == Ties(x, k, title) + Tied(s, k, title)
  {
    if s == [] || !Before(s[0], x) {
      TiedCons(x, s, k, title);
    } else {
      TailInPlayOrder(s);
      InsertTrackTies(x, s[1..], k, title);
      InsertTrackPast(s[0], x, InsertTrack(x, s[1..]), s[1..], k, title);
      assert InsertTrack(x, s) == [s[0]] + InsertTrack(x, s[1..]);
      assert [s[0]] + s[1..] == s;
    }
  }

  /** One step of `InsertTrackTies` when `x` goes past the track `a`. */
  lemma {:induction false} InsertTrackPast(a: Track, x: Track, t: seq<Track>, u: seq<Track>, k: int, title: string)
    requires Before(a, x)
    requires Tied(t, k, title) == Ties(x, k, title) + Tied(u, k, title)
    ensures Tied([a] + t, k, title) == Ties(x, k, title) + Tied([a] + u, k, title)
  {
    TiedCons(a, t, k, title);
    TiedCons(a, u, k, title);
    TiesApart(a, x, k, title);
  }

  lemma TailInPlayOrder(s: seq<Track>)
    requires InPlayOrder(s) && s != []
    ensures InPlayOrder(s[1..])
  {
    forall i, j | 0 <= i < j < |s[1..]| ensures !Before(s[1..][j], s[1..][i]) {
      assert s[1..][j] == s[j + 1] && s[1..][i] == s[i + 1];
    }
  }

  /** Two tracks tied at the same key are not one before the other. */
  lemma TiesApart(y: Track, x: Track, k: int, title: string)
    requires Before(y, x)
    ensures Ties(x, k, title) == [] || Ties(y, k, title) == []
  {
    if Ties(x, k, title) != [] && Ties(y, k, title) != [] {
      LexLessIrreflexive(title);
    }
  }

  lemma {:induction false} LexLessIrreflexive(x: string)
    ensures !LexLess(x, x)
  {
    if x != [] {
      LexLessIrreflexive(x[1..]);
    }
  }

  /** `tracks.sort(key=lambda x: (x['TrackNumber'] or 999, x['Title']))`. */
  function SortTracks(s: seq<Track>): (r: seq<Track>)
    ensures InPlayOrder(r)
    ensures multiset(r) == multiset(s)
  {
    if s == [] then []
    else
      var t := SortTracks(s[1..]);
      assert s == [s[0]] + s[1..];
      InsertTrack(s[0], t)
  }

  /** The sort is stable: tied tracks keep their order. */
  lemma {:induction false} SortTracksStable(s: seq<Track>, k: int, title: string)
    ensures Tied(SortTracks(s), k, title) == Tied(s, k, title)
  {
    if s != [] {
      SortTracksStable(s[1..], k, title);
      InsertTrackTies(s[0], SortTracks(s[1..]), k, title);
    }
  }

  // ------------------------------------------------- build_structured_json

  /** One more record joins its own group... */
  lemma GroupGrows(rs: seq<Metadata>, r: Metadata)
    ensures Group(rs + [r], ArtistKey(r), AlbumKey(r)) == Group(rs, ArtistKey(r), AlbumKey(r)) + [r]
  {
    assert (rs + [r])[..|rs|] == rs;
  }

  /** ...and leaves every other group as it was. */
  lemma GroupKept(rs: seq<Metadata>, r: Metadata, a: string, b: string)
    requires ArtistKey(r) != a || AlbumKey(r) != b
    ensures Group(rs + [r], a, b) == Group(rs, a, b)
  {
    assert (rs + [r])[..|rs|] == rs;
    assert Group(rs, a, b) + [] == Group(rs, a, b);
  }

  lemma ArtistsSnoc(rs: seq<Metadata>, r: Metadata)
    ensures Artists(rs + [r]) == Artists(rs) + {ArtistKey(r)}
  {
    assert (rs + [r])[..|rs|] == rs;
  }

  lemma AlbumsSnoc(rs: seq<Metadata>, r: Metadata, a: string)
    ensures Albums(rs + [r], a) == Albums(rs, a) + (if ArtistKey(r) == a then {AlbumKey(r)} else {})
  {
    assert (rs + [r])[..|rs|] == rs;
  }

  /** One more record leaves the albums of other artists as they were. */
  lemma AlbumsOfOther(rs: seq<Metadata>, r: Metadata, a: string, f: seq<Metadata> -> AlbumEntry)
    requires ArtistKey(r) != a
    ensures AlbumsWith(rs + [r], a, f) == AlbumsWith(rs, a, f)
  {
    AlbumsSnoc(rs, r, a);
    forall b | b in Albums(rs, a) ensures f(Group(rs + [r], a, b)) == f(Group(rs, a, b)) {
      GroupKept(rs, r, a, b);
    }
  }

  /** One more record adds itself to its own album. */
  lemma AlbumsOfOwn(rs: seq<Metadata>, r: Metadata, f: seq<Metadata> -> AlbumEntry)
    ensures var a, b := ArtistKey(r), AlbumKey(r);
            AlbumsWith(rs + [r], a, f) == AlbumsWith(rs, a, f)[b := f(Group(rs, a, b) + [r])]
  {
    var a, b := ArtistKey(r), AlbumKey(r);
    AlbumsSnoc(rs, r, a);
    GroupGrows(rs, r);
    forall y | y in Albums(rs, a) && y != b
      ensures f(Group(rs + [r], a, y)) == f(Group(rs, a, y))
    {
      GroupKept(rs, r, a, y);
    }
  }

  /** One more record, filed into the library. */
  lemma LibrarySnoc(rs: seq<Metadata>, r: Metadata, f: seq<Metadata> -> AlbumEntry)
    ensures var a, b := ArtistKey(r), AlbumKey(r);
            var lib := LibraryWith(rs, f);
            var albums := if a in lib then lib[a] else map[];
            LibraryWith(rs + [r], f) == lib[a := albums[b := f(Group(rs, a, b) + [r])]]
  {
    var a, b := ArtistKey(r), AlbumKey(r);
    var lib := LibraryWith(rs, f);
    var lib' := LibraryWith(rs + [r], f);
    ArtistsSnoc(rs, r);
    assert lib'.Keys == lib.Keys + {a};
    AlbumsOfOwn(rs, r, f);
    if a !in lib {
      AlbumsOutside(rs, a);
      assert AlbumsWith(rs, a, f) == map[];
    }
    forall x | x in lib && x != a ensures lib'[x] == lib[x] {
      AlbumsOfOther(rs, r, x, f);
    }
    var albums := if a in lib then lib[a] else map[];
    MapUpdated(lib', lib, a, albums[b := f(Group(rs, a, b) + [r])]);
  }

  /** A map with one more key `k`, bound to `v`, that agrees elsewhere is
      the update of the old one. */
  lemma MapUpdated<K, V>(m': map<K, V>, m: map<K, V>, k: K, v: V)
    requires m'.Keys == m.Keys + {k} && m'[k] == v
    requires forall x :: x in m && x != k ==> m'[x] == m[x]
    ensures m' == m[k := v]
  {
  }

  /** Sorting every album of the collected library gives the library. */
  lemma SortCollected(rs: seq<Metadata>)
    ensures SortAll(Collected(rs)) == Structured(rs)
  {
    var lib := Collected(rs);
    forall a | a in Artists(rs)
      ensures (map b | b in lib[a] :: Sorted(lib[a][b])) == AlbumsWith(rs, a, SortedEntry)
    {
      assert lib[a] == AlbumsWith(rs, a, Entry);
    }
  }

  /** The value kept once `x` is met: the one already kept, else `x` when
      it is not empty. */
  function KeepFirst(v: Option<string>, x: string): Option<string> {
    if v.Some? then v else if x != [] then Some(x) else None
  }

  /** One more record in an album. */
  lemma EntrySnoc(g: seq<Metadata>, r: Metadata)
    ensures var e := Entry(g);
            Entry(g + [r]) == AlbumEntry(KeepFirst(e.coverArt, CoverText(r)), KeepFirst(e.date, r.tags.date),
                                         KeepFirst(e.genre, r.tags.genre), e.tracks + [TrackOf(r)])
  {
    assert (g + [r])[..|g|] == g;
  }

  /** `build_structured_json(results)`: files every record under its artist
      and album, then sorts every album's tracks. */
  method BuildStructured(results: seq<Metadata>) returns (output: Library)
    ensures output == Structured(results)
  {
    output := CollectPass(results);
    SortCollected(results);
    output := SortAll(output);
  }

  /** The loop of `build_structured_json`, one record at a time. */
  method CollectPass(results: seq<Metadata>) returns (output: Library)
    ensures output == Collected(results)
  {
    output := map[];
    var i := 0;
    while i < |results|
      invariant 0 <= i <= |results|
      invariant output == Collected(results[..i])
    {
      CollectedStep(results[..i], results[i], output);
      output := FileRecord(output, results[i]);
      PrefixSnoc(results, i);
      i := i + 1;
    }
    assert results[..i] == results;
  }

  lemma PrefixSnoc<T>(s: seq<T>, i: nat)
    requires i < |s|
    ensures s[..i + 1] == s[..i] + [s[i]]
  {
  }

  /** The albums of artist `a` in `lib`, none when `a` is new. */
  function AlbumsIn(lib: Library, a: string): map<string, AlbumEntry> {
    if a in lib then lib[a] else map[]
  }

  /** The entry of album `b` in `albums`, an empty one when `b` is new. */
  function EntryIn(albums: map<string, AlbumEntry>, b: string): AlbumEntry {
    if b in albums then albums[b] else AlbumEntry(None, None, None, [])
  }

  /** What the record does to its album's entry: cover art, date and genre
      are set only when the album has none yet and the record has one, and
      the record's track is appended. */
  function Added(e: AlbumEntry, r: Metadata): AlbumEntry {
    AlbumEntry(KeepFirst(e.coverArt, CoverText(r)), KeepFirst(e.date, r.tags.date),
               KeepFirst(e.genre, r.tags.genre), e.tracks + [TrackOf(r)])
  }

  /** Filing one more record into the collected library is the loop body's
      update. */
  lemma CollectedStep(rs: seq<Metadata>, r: Metadata, lib: Library)
    requires lib == Collected(rs)
    ensures var a, b := ArtistKey(r), AlbumKey(r);
            Collected(rs + [r]) == lib[a := AlbumsIn(lib, a)[b := Added(EntryIn(AlbumsIn(lib, a), b), r)]]
  {
    var a, b := ArtistKey(r), AlbumKey(r);
    var g := Group(rs, a, b);
    LibrarySnoc(rs, r, Entry);
    var albums := AlbumsIn(lib, a);
    if a !in lib {
      AlbumsOutside(rs, a);
    }
    assert albums == AlbumsWith(rs, a, Entry);
    if b !in albums {
      GroupOutside(rs, a, b);
    }
    assert EntryIn(albums, b) == Entry(g);
    EntrySnoc(g, r);
  }

  /** The body of that loop: the record creates its artist and album when
      they are new, then updates its album's entry. */
  method FileRecord(lib: Library, r: Metadata) returns (output: Library)
    ensures var a, b := ArtistKey(r), AlbumKey(r);
            output == lib[a := AlbumsIn(lib, a)[b := Added(EntryIn(AlbumsIn(lib, a), b), r)]]
  {
    output := lib;
    var artist := ArtistKey(r);
    var album := AlbumKey(r);
    ghost var albums := AlbumsIn(lib, artist);
    if artist !in output {
      output := output[artist := map[]];
    }
    var entries := output[artist];
    assert entries == albums;
    if album !in entries {
      entries := entries[album := AlbumEntry(None, None, None, [])];
    }
    var e := entries[album];
    assert e == EntryIn(albums, album);
    e := AddRecord(e, r);
    assert entries[album := e] == albums[album := e];
    assert output[artist := entries[album := e]] == lib[artist := albums[album := e]];
    output := output[artist := entries[album := e]];
  }

  /** The record's part of that loop body, on its album. */
  method AddRecord(e: AlbumEntry, r: Metadata) returns (e': AlbumEntry)
    ensures e' == Added(e, r)
  {
    e' := e;
    if CoverText(r) != [] && e'.coverArt.None? {
      e' := e'.(coverArt := r.coverArt);
    }
    if r.tags.date != [] && e'.date.None? {
      e' := e'.(date := Some(r.tags.date));
    }
    if r.tags.genre != [] && e'.genre.None? {
      e' := e'.(genre := Some(r.tags.genre));
    }
    e' := e'.(tracks := e'.tracks + [TrackOf(r)]);
  }

  // ---------------------------------------------------- the library's shape

  /** The library holds an artist exactly when some record is filed under
      it, and an album exactly when some record is filed under both. */
  lemma StructuredKeys(rs: seq<Metadata>, a: string, b: string)
    ensures a in Structured(rs) <==> exists r :: r in rs && ArtistKey(r) == a
    ensures a in Structured(rs) ==>
              (b in Structured(rs)[a] <==> exists r :: r in rs && ArtistKey(r) == a && AlbumKey(r) == b)
  {
    ArtistsMembers(rs, a);
    AlbumsMembers(rs, a, b);
  }

  /** Every record gives exactly one track, in the album it is filed under:
      an album's tracks are, as a multiset, the tracks of its records, and
      they are in play order, tied tracks in the order of the records. */
  lemma StructuredTracks(rs: seq<Metadata>, a: string, b: string, k: int, title: string)
    requires a in Structured(rs) && b in Structured(rs)[a]
    ensures var ts := Structured(rs)[a][b].tracks;
            multiset(ts) == multiset(TracksOf(Group(rs, a, b))) &&
            InPlayOrder(ts) &&
            Tied(ts, k, title) == Tied(TracksOf(Group(rs, a, b)), k, title)
  {
    SortTracksStable(TracksOf(Group(rs, a, b)), k, title);
  }

  /** A record's track is in the album of its artist and album. */
  lemma RecordHasTrack(rs: seq<Metadata>, r: Metadata)
    requires r in rs
    ensures var a, b := ArtistKey(r), AlbumKey(r);
            a in Structured(rs) && b in Structured(rs)[a] &&
            TrackOf(r) in Structured(rs)[a][b].tracks
  {
    var a, b := ArtistKey(r), AlbumKey(r);
    InOwnGroup(rs, r);
    var g := Group(rs, a, b);
    if b !in Albums(rs, a) {
      GroupOutside(rs, a, b);
    }
    if a !in Artists(rs) {
      AlbumsOutside(rs, a);
    }
    var i :| 0 <= i < |g| && g[i] == r;
    var ts := TracksOf(g);
    assert ts[i] == TrackOf(r);
    assert TrackOf(r) in multiset(ts);
    var sorted := SortTracks(ts);
    assert Structured(rs)[a][b].tracks == sorted;
    assert TrackOf(r) in multiset(sorted);
  }

  /** An album's cover art, date and genre are those of the first of its
      records that has one. */
  lemma StructuredDetails(rs: seq<Metadata>, a: string, b: string)
    requires a in Structured(rs) && b in Structured(rs)[a]
    ensures var e := Structured(rs)[a][b];
            var g := Group(rs, a, b);
            e.coverArt == FirstWith(g, CoverText) && e.date == FirstWith(g, DateText) &&
            e.genre == FirstWith(g, GenreText)
  {
  }
}
