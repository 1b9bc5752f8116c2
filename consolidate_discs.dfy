/** The single-album disc consolidation utility: the disc folders of one
    album ("Album Disc 1", "Album CD2", "Album [Disc 1]", "Album (Disk 3)")
    are found next to each other, and every audio file of every disc is
    copied into one folder named after the album under the name
    `{disc}-{track} {title}{ext}`, its disc tag set to `disc/total`. A
    preview lists the same renames without copying. Directory listings,
    tag titles and the outcome of each copy and tag write are parameters. */
module ConsolidateDiscs {
  import opened Wrappers
  import opened Text
  import Patterns
  import Sorting

  // ------------------------------------------------------ disc folder names

  /** The three folder patterns differ only in what surrounds the disc
      indicator: nothing, `[`...`]` or `(`...`)`. */
  datatype Wrapper = Bare | Brackets | Parens

  function Open(w: Wrapper): (s: string)
    ensures |s| <= 1 && (s != [] ==> !IsSpace(s[0]) && !IsDigit(s[0]) && LowerChar(s[0]) == s[0])
  {
    match w
    case Bare => ""
    case Brackets => "["
    case Parens => "("
  }

  function Close(w: Wrapper): (s: string)
    ensures |s| <= 1 && (s != [] ==> !IsDigit(s[0]))
  {
    match w
    case Bare => ""
    case Brackets => "]"
    case Parens => ")"
  }

  /** The patterns in the order they are tried. */
  const FolderPatterns: seq<Wrapper> := [Bare, Brackets, Parens]

  /** The alternation `(?:Disc|CD|Disk)`, matched case-insensitively. */
  const Keywords: seq<string> := ["disc", "cd", "disk"]

  predicate AllSpaces(s: string) { forall i :: 0 <= i < |s| ==> IsSpace(s[i]) }

  /** What follows the album name in a disc folder name: blanks, the
      indicator keyword as written, blanks, and the disc number's digits. */
  datatype DiscTail = DiscTail(lead: string, keyword: string, gap: string, digits: string)

  predicate ValidTail(tl: DiscTail) {
    AllSpaces(tl.lead) && Lower(tl.keyword) in Keywords && AllSpaces(tl.gap)
    && tl.digits != [] && AllDigits(tl.digits)
  }

  /** The text from the keyword on. */
  function IndicatorText(keyword: string, gap: string, digits: string, w: Wrapper): string {
    keyword + (gap + (digits + Close(w)))
  }

  /** The text a tail stands for inside wrapper `w`. */
  function TailText(tl: DiscTail, w: Wrapper): string {
    tl.lead + (Open(w) + IndicatorText(tl.keyword, tl.gap, tl.digits, w))
  }

  /** `(?:Disc|CD|Disk)\s*(\d+)<close>$` against the text `u` after the
      opening bracket: the keyword as written, the blanks and the digits
      (`IndicatorShape` states what they are). */
  function MatchIndicator(u: string, w: Wrapper): (r: Option<(string, string, string)>)
    ensures r.Some? ==> r.value.2 != []
  {
    var k := Patterns.KeywordLen(u, 0, Keywords);
    if k == 0 then None
    else
      var v := u[k..];
      var g := |LeadingSpaces(v)|;
      var x := v[g..];
      var d := |LeadingDigits(x)|;
      if d == 0 || x[d..] != Close(w) then None
      else Some((u[..k], v[..g], x[..d]))
  }

  /** A text is its prefix and the rest. */
  lemma SplitAt(s: string, n: nat)
    requires n <= |s|
    ensures s == s[..n] + s[n..]
  {
  }

  /** The keyword the alternation matched, in the case it is written. */
  lemma IndicatorKeyword(u: string, k: nat)
    requires k == Patterns.KeywordLen(u, 0, Keywords) && k > 0
    ensures k <= |u| && Lower(u[..k]) in Keywords
  {
    var j :| 0 <= j < |Keywords| && |Keywords[j]| == k && Patterns.LiteralAt(u, 0, Keywords[j]);
    assert u[0..k] == u[..k];
  }

  /** A matched indicator spells the text. */
  lemma IndicatorSpells(u: string, w: Wrapper)
    ensures var r := MatchIndicator(u, w);
            r.Some? ==> u == IndicatorText(r.value.0, r.value.1, r.value.2, w)
  {
    var k := Patterns.KeywordLen(u, 0, Keywords);
    if k > 0 {
      var v := u[k..];
      var g := |LeadingSpaces(v)|;
      var x := v[g..];
      var d := |LeadingDigits(x)|;
      if d > 0 && x[d..] == Close(w) {
        SplitAt(u, k);
        SplitAt(v, g);
        SplitAt(x, d);
      }
    }
  }

  /** A matched indicator is a keyword, blanks and digits. */
  lemma IndicatorValid(u: string, w: Wrapper)
    ensures var r := MatchIndicator(u, w);
            r.Some? ==> Lower(r.value.0) in Keywords && AllSpaces(r.value.1) && AllDigits(r.value.2)
  {
    var k := Patterns.KeywordLen(u, 0, Keywords);
    if k > 0 {
      IndicatorKeyword(u, k);
      var v := u[k..];
      var g := |LeadingSpaces(v)|;
      assert v[..g] == LeadingSpaces(v);
      var x := v[g..];
      var d := |LeadingDigits(x)|;
      assert x[..d] == LeadingDigits(x);
    }
  }

  /** A matched indicator is a keyword, blanks and digits, and spells the text. */
  lemma IndicatorShape(u: string, w: Wrapper)
    ensures var r := MatchIndicator(u, w);
            r.Some? ==>
              Lower(r.value.0) in Keywords && AllSpaces(r.value.1) && AllDigits(r.value.2)
              && u == IndicatorText(r.value.0, r.value.1, r.value.2, w)
  {
    IndicatorSpells(u, w);
    IndicatorValid(u, w);
  }

  /** `\s*<open>(?:Disc|CD|Disk)\s*(\d+)<close>$` against the text `t` after
      the album name. Every part is deterministic: the blanks are taken whole
      (neither a bracket nor a keyword starts with one), at most one keyword
      matches at a place, and the digits run to the closing part. */
  function MatchTail(t: string, w: Wrapper): (r: Option<DiscTail>)
    ensures r.Some? ==> r.value.digits != []
  {
    var a := |LeadingSpaces(t)|;
    var rest := t[a..];
    var o := Open(w);
    if !(|o| <= |rest| && rest[..|o|] == o) then None
    else
      var m := MatchIndicator(rest[|o|..], w);
      if m.None? then None
      else Some(DiscTail(t[..a], m.value.0, m.value.1, m.value.2))
  }

  /** A matched tail is well formed and spells the text. */
  lemma TailShape(t: string, w: Wrapper)
    ensures var r := MatchTail(t, w);
            r.Some? ==> ValidTail(r.value) && t == TailText(r.value, w)
  {
    var a := |LeadingSpaces(t)|;
    var rest := t[a..];
    var o := Open(w);
    if |o| <= |rest| && rest[..|o|] == o {
      IndicatorShape(rest[|o|..], w);
      assert t[..a] == LeadingSpaces(t);
      SplitAt(t, a);
      SplitAt(rest, |o|);
    }
  }

  /** The first pattern whose tail matches `t`. */
  function MatchFirst(t: string, ws: seq<Wrapper>): (r: Option<(Wrapper, DiscTail)>)
    ensures r.Some? ==> r.value.0 in ws && MatchTail(t, r.value.0) == Some(r.value.1)
    ensures r.None? <==> forall i :: 0 <= i < |ws| ==> MatchTail(t, ws[i]).None?
  {
    if ws == [] then None
    else
      var m := MatchTail(t, ws[0]);
      if m.Some? then Some((ws[0], m.value))
      else
        assert forall i :: 1 <= i < |ws| ==> ws[i] == ws[1..][i - 1];
        MatchFirst(t, ws[1..])
  }

  /** Patterns that do not match are passed over. */
  lemma MatchFirstSkips(t: string, ws: seq<Wrapper>)
    requires ws != [] && MatchTail(t, ws[0]).None?
    ensures MatchFirst(t, ws) == MatchFirst(t, ws[1..])
  {
  }

  /** The disc number of folder `name` when it is a disc folder of `album`:
      the album name, matched literally but case-insensitively, then a disc
      tail under the first pattern that matches. */
  function FolderDisc(name: string, album: string): (r: Option<nat>)
    ensures r.Some? ==>
      |album| <= |name| && EqualsIgnoreCase(name[..|album|], album)
      && exists w, tl :: ValidTail(tl) && name[|album|..] == TailText(tl, w) && r.value == DigitsValue(tl.digits)
  {
    var n := |album|;
    if n <= |name| && Lower(name[..n]) == Lower(album) then
      var m := MatchFirst(name[n..], FolderPatterns);
      if m.Some? then
        TailShape(name[n..], m.value.0);
        Some(DigitsValue(m.value.1.digits))
      else None
    else None
  }

  /** Blanks followed by a non-blank: the leading run is those blanks. */
  lemma {:induction false} LeadingSpacesOf(sp: string, rest: string)
    requires AllSpaces(sp) && (rest == [] || !IsSpace(rest[0]))
    ensures LeadingSpaces(sp + rest) == sp
  {
    if sp != [] {
      assert (sp + rest)[1..] == sp[1..] + rest;
      LeadingSpacesOf(sp[1..], rest);
    } else {
      assert sp + rest == rest;
    }
  }

  /** A keyword's first letter is no blank, digit or bracket. */
  lemma KeywordStartsSolid(kw: string)
    requires Lower(kw) in Keywords
    ensures kw != [] && !IsSpace(kw[0]) && !IsDigit(kw[0]) && kw[0] != '[' && kw[0] != '('
  {
    assert Lower(kw)[0] == LowerChar(kw[0]);
  }

  /** The first letter of a lower-cased prefix. */
  lemma LowerHead(u: string, n: nat)
    requires 0 < n <= |u|
    ensures Lower(u[0..n])[0] == LowerChar(u[0])
  {
  }

  /** A keyword written in any case is the alternative it spells: no earlier
      alternative matches in its place. */
  lemma KeywordFound(u: string, kw: string, rest: string)
    requires u == kw + rest && Lower(kw) in Keywords
    ensures Patterns.KeywordLen(u, 0, Keywords) == |kw|
  {
    var l := Lower(kw);
    assert u[0..|kw|] == kw;
    assert Patterns.LiteralAt(u, 0, l);
    assert Keywords[1..] == ["cd", "disk"];
    assert Keywords[1..][1..] == ["disk"];
    if l == "cd" {
      LowerHead(u, |kw|);
      if 4 <= |u| { LowerHead(u, 4); }
    } else if l == "disk" {
      assert u[0..4] == kw;
      LowerHead(u, |kw|);
      LowerHead(u, 2);
    }
  }

  /** No keyword starts with a bracket. */
  lemma NoKeywordAtBracket(u: string)
    requires u != [] && (u[0] == '[' || u[0] == '(')
    ensures Patterns.KeywordLen(u, 0, Keywords) == 0
  {
    assert Keywords[1..] == ["cd", "disk"];
    assert Keywords[1..][1..] == ["disk"];
    if 2 <= |u| { LowerHead(u, 2); }
    if 4 <= |u| { LowerHead(u, 4); }
  }

  /** The matcher reads a well-formed indicator back. */
  lemma MatchOwnIndicator(kw: string, gap: string, digits: string, w: Wrapper)
    requires Lower(kw) in Keywords && AllSpaces(gap) && digits != [] && AllDigits(digits)
    ensures MatchIndicator(IndicatorText(kw, gap, digits, w), w) == Some((kw, gap, digits))
  {
    var u := IndicatorText(kw, gap, digits, w);
    KeywordFound(u, kw, gap + (digits + Close(w)));
    var v := u[|kw|..];
    assert v == gap + (digits + Close(w));
    LeadingSpacesOf(gap, digits + Close(w));
    var x := v[|gap|..];
    assert x == digits + Close(w);
    LeadingDigitsOf(digits, Close(w));
  }

  /** The matcher reads a well-formed tail back under its own pattern. */
  lemma MatchOwnTail(tl: DiscTail, w: Wrapper)
    requires ValidTail(tl)
    ensures MatchTail(TailText(tl, w), w) == Some(tl)
  {
    var ind := IndicatorText(tl.keyword, tl.gap, tl.digits, w);
    var t := TailText(tl, w);
    KeywordStartsSolid(tl.keyword);
    LeadingSpacesOf(tl.lead, Open(w) + ind);
    var rest := t[|tl.lead|..];
    assert rest == Open(w) + ind;
    assert rest[|Open(w)|..] == ind;
    MatchOwnIndicator(tl.keyword, tl.gap, tl.digits, w);
  }

  /** Under any other pattern the tail does not match: the character after
      the blanks is the wrong bracket, or a bracket where a keyword or a
      keyword where a bracket belongs. */
  lemma OtherWrapperFails(tl: DiscTail, w: Wrapper, v: Wrapper)
    requires ValidTail(tl) && v != w
    ensures MatchTail(TailText(tl, w), v).None?
  {
    var ind := IndicatorText(tl.keyword, tl.gap, tl.digits, w);
    var t := TailText(tl, w);
    KeywordStartsSolid(tl.keyword);
    LeadingSpacesOf(tl.lead, Open(w) + ind);
    var rest := t[|tl.lead|..];
    assert rest == Open(w) + ind;
    assert rest[0] == if w == Bare then tl.keyword[0] else Open(w)[0];
    if v == Bare {
      NoKeywordAtBracket(rest);
    } else {
      assert rest[..1] == [rest[0]];
    }
  }

  /** Every well-formed folder name of the album is found with its number:
      the album name in any case, blanks, an optional bracket pair around
      Disc, CD or Disk in any case, blanks and the digits. */
  lemma FolderDiscFound(albumText: string, album: string, tl: DiscTail, w: Wrapper)
    requires |albumText| == |album| && EqualsIgnoreCase(albumText, album) && ValidTail(tl)
    ensures FolderDisc(albumText + TailText(tl, w), album) == Some(DigitsValue(tl.digits))
  {
    var name := albumText + TailText(tl, w);
    assert name[..|album|] == albumText;
    assert name[|album|..] == TailText(tl, w);
    OnlyOwnPatternMatches(tl, w);
  }

  /** The first matching pattern of a well-formed tail is its own. */
  lemma OnlyOwnPatternMatches(tl: DiscTail, w: Wrapper)
    requires ValidTail(tl)
    ensures MatchFirst(TailText(tl, w), FolderPatterns) == Some((w, tl))
  {
    var t := TailText(tl, w);
    MatchOwnTail(tl, w);
    if w != Bare {
      OtherWrapperFails(tl, w, Bare);
      MatchFirstSkips(t, FolderPatterns);
      var rest := FolderPatterns[1..];
      assert rest == [Brackets, Parens];
      if w != Brackets {
        OtherWrapperFails(tl, w, Brackets);
        MatchFirstSkips(t, rest);
        assert rest[1..] == [Parens];
      }
    }
  }

  /** `find_disc_folders` before sorting: the disc folders of the listing
      with their numbers, in listing order. */
  function DiscFoldersIn(listing: seq<string>, album: string): (r: seq<(nat, string)>)
    ensures forall x :: x in r <==> x.1 in listing && FolderDisc(x.1, album) == Some(x.0)
  {
    if listing == [] then []
    else
      var f := FolderDisc(listing[0], album);
      var rest := DiscFoldersIn(listing[1..], album);
      assert forall s :: s in listing <==> s == listing[0] || s in listing[1..];
      (if f.Some? then [(f.value, listing[0])] else []) + rest
  }

  function DiscKey(x: (nat, string)): real { x.0 as real }

  /** `find_disc_folders`: the disc folders sorted by disc number, folders
      with the same number keeping their listing order. */
  function FindDiscFolders(listing: seq<string>, album: string): (r: seq<(nat, string)>)
    ensures Sorting.SortedBy(r, DiscKey)
    ensures forall x :: x in r <==> x.1 in listing && FolderDisc(x.1, album) == Some(x.0)
  {
    var found := DiscFoldersIn(listing, album);
    var r := Sorting.SortBy(found, DiscKey);
    assert forall x :: x in r <==> x in found by {
      assert forall x :: x in r <==> x in multiset(r);
      assert forall x :: x in found <==> x in multiset(found);
    }
    r
  }

  /** Folders with the same number keep their listing order. */
  lemma FindDiscFoldersStable(listing: seq<string>, album: string, n: nat)
    ensures Sorting.WithKey(FindDiscFolders(listing, album), DiscKey, n as real)
         == Sorting.WithKey(DiscFoldersIn(listing, album), DiscKey, n as real)
  {
    Sorting.SortByStable(DiscFoldersIn(listing, album), DiscKey, n as real);
  }

  // ---------------------------------------------------------- audio files

  /** The index of the last `.` in `s`, -1 when there is none. */
  function LastDot(s: string): (r: int)
    ensures -1 <= r < |s| && (r >= 0 ==> s[r] == '.')
    ensures forall j :: r < j < |s| ==> s[j] != '.'
  {
    if s == [] then -1
    else if s[|s| - 1] == '.' then |s| - 1
    else LastDot(s[..|s| - 1])
  }

  /** `Path(name).suffix`: from the last dot on, unless that dot starts the
      name or ends it. */
  function Suffix(name: string): (r: string)
    ensures EndsWith(name, r) && (r != [] ==> |r| < |name|)
    ensures r != [] ==> |r| >= 2 && r[0] == '.' && forall j :: 0 < j < |r| ==> r[j] != '.'
  {
    var i := LastDot(name);
    if 0 < i < |name| - 1 then name[i..] else ""
  }

  /** `Path(name).stem`: the name without its suffix. */
  function Stem(name: string): (r: string)
    ensures r + Suffix(name) == name
  {
    var n := |name| - |Suffix(name)|;
    assert name == name[..n] + name[n..];
    name[..n]
  }

  /** The extensions `get_audio_files` keeps, compared in lower case. */
  const AudioExtensions: set<string> := {".mp3", ".m4a", ".flac", ".ogg", ".wav"}

  predicate IsAudio(name: string) { Lower(Suffix(name)) in AudioExtensions }

  /** The audio files of a folder listing, in the listing's order. */
  function AudioInListing(files: seq<string>): (r: seq<string>)
    ensures |r| <= |files|
    ensures forall f :: f in r <==> f in files && IsAudio(f)
  {
    if files == [] then []
    else
      var last := files[|files| - 1];
      var rest := AudioInListing(files[..|files| - 1]);
      assert forall f :: f in files <==> f in files[..|files| - 1] || f == last;
      rest + (if IsAudio(last) then [last] else [])
  }

  /** No name sorts before the one ahead of it. */
  predicate NamesSorted(s: seq<string>) {
    forall i, j :: 0 <= i < j < |s| ==> !LexLess(s[j], s[i])
  }

  /** `x` put into a sorted list of names ahead of the first name that does
      not sort before it. */
  function InsertName(x: string, s: seq<string>): (r: seq<string>)
    requires NamesSorted(s)
    ensures NamesSorted(r) && multiset(r) == multiset(s) + multiset{x}
  {
    if s == [] then [x]
    else if !LexLess(s[0], x) then
      forall j | 0 <= j < |s|
        ensures !LexLess(s[j], x)
      {
        if j > 0 { NotLexLessTransitive(s[j], s[0], x); }
      }
      assert s == [s[0]] + s[1..];
      ConsNamesSorted(x, s);
      [x] + s
    else
      var t := InsertName(x, s[1..]);
      LexLessAsymmetric(s[0], x);
      forall j | 0 <= j < |t|
        ensures !LexLess(t[j], s[0])
      {
        assert t[j] in multiset(t);
        if t[j] != x {
          var k :| 1 <= k < |s| && s[k] == t[j];
        }
      }
      ConsNamesSorted(s[0], t);
      assert s == [s[0]] + s[1..];
      [s[0]] + t
  }

  lemma ConsNamesSorted(a: string, t: seq<string>)
    requires NamesSorted(t)
    requires forall j :: 0 <= j < |t| ==> !LexLess(t[j], a)
    ensures NamesSorted([a] + t)
  {
    forall i, j | 0 <= i < j < |[a] + t|
      ensures !LexLess(([a] + t)[j], ([a] + t)[i])
    {
      assert ([a] + t)[j] == t[j - 1];
      if i > 0 { assert ([a] + t)[i] == t[i - 1]; }
    }
  }

  /** `sorted(names)`: the same names, none sorting before the one ahead of it. */
  function SortNames(s: seq<string>): (r: seq<string>)
    ensures NamesSorted(r) && multiset(r) == multiset(s)
  {
    if s == [] then []
    else
      assert s == [s[0]] + s[1..];
      InsertName(s[0], SortNames(s[1..]))
  }

  /** `get_audio_files`: the audio files of a folder listing, sorted by name. */
  function AudioFiles(files: seq<string>): (r: seq<string>)
    ensures |r| <= |files|
    ensures forall f :: f in r <==> f in files && IsAudio(f)
    ensures NamesSorted(r) && multiset(r) == multiset(AudioInListing(files))
  {
    var r := SortNames(AudioInListing(files));
    assert forall f :: f in r <==> f in multiset(r);
    assert |r| == |multiset(r)| == |AudioInListing(files)|;
    r
  }

  // ------------------------------------------------------- track numbers

  /** The class `[\s.\-_]` after a leading track number. */
  predicate IsTrackSeparator(c: char) { IsSpace(c) || c == '.' || c == '-' || c == '_' }

  /** `extract_track_number`: the leading digits of the file name when a
      blank, dot, dash or underscore follows them. */
  function ExtractTrackNumber(filename: string): (r: Option<nat>)
    ensures r.Some? ==> filename != [] && IsDigit(filename[0])
  {
    var d := LeadingDigits(filename);
    if d != [] && |d| < |filename| && IsTrackSeparator(filename[|d|]) then Some(DigitsValue(d))
    else None
  }

  /** A number written before a separator is read back. */
  lemma TrackNumberRead(n: nat, sep: char, rest: string)
    requires IsTrackSeparator(sep)
    ensures ExtractTrackNumber(NatToString(n) + ([sep] + rest)) == Some(n)
  {
    var ds := NatToString(n);
    LeadingDigitsOf(ds, [sep] + rest);
    NatToStringValue(n);
    assert (ds + ([sep] + rest))[|ds|] == sep;
  }

  /** Without a separator after the digits there is no track number. */
  lemma NoSeparatorNoTrack(ds: string, c: char, rest: string)
    requires ds != [] && AllDigits(ds) && !IsDigit(c) && !IsTrackSeparator(c)
    ensures ExtractTrackNumber(ds + ([c] + rest)).None?
  {
    LeadingDigitsOf(ds, [c] + rest);
    assert (ds + ([c] + rest))[|ds|] == c;
  }

  // ------------------------------------------------------------ file names

  /** The characters `make_safe_filename` never leaves. */
  predicate Unsafe(c: char) {
    c == '/' || c == '\\' || c == ':' || c == '"' || c == '<' || c == '>' || c == '|' || c == '?' || c == '*'
  }

  const Deleted: set<char> := {'<', '>', '|', '?', '*'}

  /** `make_safe_filename`: slashes become ` - `, a colon ` -`, a double
      quote a single one, the other unsafe characters are deleted, and
      whitespace is collapsed. */
  function MakeSafeFilename(name: string): (r: string)
    ensures Tidy(r)
    ensures forall x :: x in r ==> !Unsafe(x)
    ensures forall x :: x in r ==> x in name || x == ' ' || x == '-' || x == '\''
  {
    var e := DeleteChars(Replaced(name), Deleted);
    var f := Collapse(e);
    StripTidy(f);
    Strip(f)
  }

  /** The four replacements of `make_safe_filename`, in their order. */
  function Replaced(name: string): (r: string)
    ensures forall x :: x in r ==> x != '/' && x != '\\' && x != ':' && x != '"'
    ensures forall x :: x in r ==> x in name || x == ' ' || x == '-' || x == '\''
    ensures (forall x :: x in name ==> !Unsafe(x)) ==> r == name
  {
    var a := ReplaceChar(name, '/', " - ");
    assert forall x :: x in " - " ==> x == ' ' || x == '-';
    assert forall x :: x in a ==> x != '/' && (x in name || x == ' ' || x == '-');
    var b := ReplaceChar(a, '\\', " - ");
    assert forall x :: x in b ==> x != '/' && x != '\\' && (x in name || x == ' ' || x == '-');
    var c := ReplaceChar(b, ':', " -");
    assert forall x :: x in " -" ==> x == ' ' || x == '-';
    assert forall x :: x in c ==> x != '/' && x != '\\' && x != ':' && (x in name || x == ' ' || x == '-');
    ReplaceChar(c, '"', "'")
  }

  /** A tidy name without unsafe characters is already safe. */
  lemma SafeNameUnchanged(s: string)
    requires Tidy(s) && forall x :: x in s ==> !Unsafe(x)
    ensures MakeSafeFilename(s) == s
  {
    assert forall i :: 0 <= i < |s| ==> s[i] !in Deleted by {
      forall i | 0 <= i < |s| ensures s[i] !in Deleted {
        assert s[i] in s;
      }
    }
    assert DeleteChars(s, Deleted) == s;
    CollapseTidy(s);
    StripTidy(s);
  }

  /** Making a name safe twice changes nothing more. */
  lemma MakeSafeIdempotent(name: string)
    ensures MakeSafeFilename(MakeSafeFilename(name)) == MakeSafeFilename(name)
  {
    SafeNameUnchanged(MakeSafeFilename(name));
  }

  // --------------------------------------------------------- track titles

  /** The text after the leading blanks of `s`. */
  function AfterBlanks(s: string): (r: string)
    ensures |r| <= |s| && r == s[|s| - |r|..] && (r != [] ==> !IsSpace(r[0]))
  {
    s[|LeadingSpaces(s)|..]
  }

  /** `re.sub(r'^\d+-\d+\s*', '', t)`. */
  function StripDiscTrack(t: string): (r: string)
    ensures |r| <= |t| && r == t[|t| - |r|..]
  {
    var d1 := LeadingDigits(t);
    if d1 == [] || |d1| == |t| || t[|d1|] != '-' then t
    else
      var u := t[|d1| + 1..];
      var d2 := LeadingDigits(u);
      if d2 == [] then t
      else
        var r := AfterBlanks(u[|d2|..]);
        assert r == t[|t| - |r|..];
        r
  }

  /** `re.sub(r'^\d+\s*', '', t)`. */
  function StripNumber(t: string): (r: string)
    ensures |r| <= |t| && r == t[|t| - |r|..]
    ensures t != [] && !IsDigit(t[0]) ==> r == t
  {
    var d := LeadingDigits(t);
    if d == [] then t
    else
      var r := AfterBlanks(t[|d|..]);
      assert r == t[|t| - |r|..];
      r
  }

  /** The title a consolidated file is named after: a leading `disc-track`
      prefix and then a leading number are removed, and when nothing is left
      the title is kept as it was. */
  function CleanTitle(title: string): (r: string)
    ensures |r| <= |title| && r == title[|title| - |r|..]
    ensures title != [] ==> r != []
    ensures title == [] || !IsDigit(title[0]) ==> r == title
  {
    var b := StripDiscTrack(title);
    var c := StripNumber(b);
    SuffixOfSuffix(title, b, c);
    if c == [] then title else c
  }

  /** A tail of a tail is a tail. */
  lemma SuffixOfSuffix(a: string, b: string, c: string)
    requires |b| <= |a| && b == a[|a| - |b|..]
    requires |c| <= |b| && c == b[|b| - |c|..]
    ensures c == a[|a| - |c|..]
  {
  }

  /** A title that starts with a number and blanks is named after the rest. */
  lemma CleanTitleDropsNumber(ds: string, sp: string, w: string)
    requires ds != [] && AllDigits(ds) && sp != [] && AllSpaces(sp)
    requires w != [] && !IsDigit(w[0]) && !IsSpace(w[0])
    ensures CleanTitle(ds + (sp + w)) == w
  {
    var t := ds + (sp + w);
    LeadingDigitsOf(ds, sp + w);
    assert t[|ds|] == sp[0];
    assert StripDiscTrack(t) == t;
    assert t[|ds|..] == sp + w;
    LeadingSpacesOf(sp, w);
    assert (sp + w)[|sp|..] == w;
  }

  /** A title that starts with a `disc-track` prefix is named after the rest. */
  lemma CleanTitleDropsDiscTrack(d1: string, d2: string, sp: string, w: string)
    requires d1 != [] && AllDigits(d1) && d2 != [] && AllDigits(d2) && AllSpaces(sp)
    requires w != [] && !IsDigit(w[0]) && !IsSpace(w[0])
    ensures CleanTitle(d1 + (['-'] + (d2 + (sp + w)))) == w
  {
    var t := d1 + (['-'] + (d2 + (sp + w)));
    LeadingDigitsOf(d1, ['-'] + (d2 + (sp + w)));
    assert t[|d1|] == '-';
    var u := t[|d1| + 1..];
    assert u == d2 + (sp + w);
    LeadingDigitsOf(d2, sp + w);
    assert u[|d2|..] == sp + w;
    BlanksBefore(sp, w);
    StripDiscTrackAt(t, |d1|, |d2|);
  }

  /** After blanks and a non-blank word, the word is what is left. */
  lemma BlanksBefore(sp: string, w: string)
    requires AllSpaces(sp) && w != [] && !IsSpace(w[0])
    ensures AfterBlanks(sp + w) == w
  {
    LeadingSpacesOf(sp, w);
    assert (sp + w)[|sp|..] == w;
  }

  /** `StripDiscTrack` once its two runs of digits are known. */
  lemma StripDiscTrackAt(t: string, n1: nat, n2: nat)
    requires 0 < n1 < |t| && |LeadingDigits(t)| == n1 && t[n1] == '-'
    requires 0 < n2 && |LeadingDigits(t[n1 + 1..])| == n2
    ensures StripDiscTrack(t) == AfterBlanks(t[n1 + 1..][n2..])
  {
  }

  /** `str(track_num).zfill(2) if track_num else '00'`: a track number of 0
      reads as missing, which gives the same two zeros. */
  function TrackText(track: Option<nat>): (r: string)
    ensures |r| >= 2 && AllDigits(r)
    ensures DigitsValue(r) == if track.Some? then track.value else 0
  {
    if track.Some? && track.value != 0 then
      var s := NatToString(track.value);
      NatToStringValue(track.value);
      ZFillValue(s, 2);
      ZFill(s, 2)
    else
      assert DigitsValue("00") == 0 by {
        assert "00"[..1] == "0";
      }
      "00"
  }

  /** The name a file gets in the consolidated folder:
      `{disc}-{track} {safe clean title}{suffix}`. */
  function NewName(disc: nat, file: string, title: string): string {
    NameShape(disc, file, MakeSafeFilename(CleanTitle(title)))
  }

  /** `{disc}-{track} {shown}{suffix}`. */
  function NameShape(disc: nat, file: string, shown: string): (r: string)
    ensures |r| == |NatToString(disc)| + |TrackText(ExtractTrackNumber(file))| + |shown| + |Suffix(file)| + 2
  {
    NatToString(disc) + ("-" + (TrackText(ExtractTrackNumber(file)) + (" " + (shown + Suffix(file)))))
  }

  /** The disc and track numbers at the front of a consolidated name. */
  function DiscTrackOf(name: string): (r: Option<(nat, nat)>)
    ensures r.Some? ==> name != [] && IsDigit(name[0])
  {
    var ds := LeadingDigits(name);
    if ds == [] || |ds| == |name| || name[|ds|] != '-' then None
    else
      var ts := LeadingDigits(name[|ds| + 1..]);
      if ts == [] then None else Some((DigitsValue(ds), DigitsValue(ts)))
  }

  /** Digits, a dash, digits and a blank are read back as two numbers. */
  lemma DiscTrackRead(ds: string, tt: string, tail: string)
    requires ds != [] && AllDigits(ds) && tt != [] && AllDigits(tt) && tail != [] && tail[0] == ' '
    ensures DiscTrackOf(ds + ("-" + (tt + tail))) == Some((DigitsValue(ds), DigitsValue(tt)))
  {
    var n := ds + ("-" + (tt + tail));
    LeadingDigitsOf(ds, "-" + (tt + tail));
    assert n[|ds|] == '-';
    assert n[|ds| + 1..] == tt + tail;
    LeadingDigitsOf(tt, tail);
  }

  /** A consolidated name carries its disc number and its track number (0
      when the file name had none) at the front. */
  lemma NewNameNumbers(disc: nat, file: string, title: string)
    ensures var t := ExtractTrackNumber(file);
            DiscTrackOf(NewName(disc, file, title)) == Some((disc, if t.Some? then t.value else 0))
  {
    NatToStringValue(disc);
    DiscTrackRead(NatToString(disc), TrackText(ExtractTrackNumber(file)),
                  " " + (MakeSafeFilename(CleanTitle(title)) + Suffix(file)));
    assert NewName(disc, file, title) == NameShape(disc, file, MakeSafeFilename(CleanTitle(title)));
  }

  // ------------------------------------------------------------- the plan

  /** One audio file of a disc folder and the name it gets. */
  datatype Move = Move(folder: string, original: string, newName: string)

  /** How a file is named from its disc number, file name and title. The
      utility names files with `NewName`; the plan and the loops below take
      the naming as a parameter so that their reasoning does not depend on
      how a name is spelled. */
  type Namer = (nat, string, string) -> string

  /** The title a file is named after: its tag title when that is present
      and not empty, its stem otherwise. */
  function TitleOf(folder: string, file: string, tags: (string, string) -> Option<string>): (r: string)
    ensures r == Stem(file) || tags(folder, file) == Some(r)
  {
    var t := tags(folder, file);
    if t.Some? && t.value != [] then t.value else Stem(file)
  }

  function MoveOf(disc: nat, folder: string, file: string, tags: (string, string) -> Option<string>, name: Namer): Move {
    Move(folder, file, name(disc, file, TitleOf(folder, file, tags)))
  }

  /** The moves of one disc's files, in file order. */
  function DiscMoves(disc: nat, folder: string, files: seq<string>, tags: (string, string) -> Option<string>, name: Namer): (r: seq<Move>)
    ensures |r| == |files|
  {
    if files == [] then []
    else DiscMoves(disc, folder, files[..|files| - 1], tags, name) + [MoveOf(disc, folder, files[|files| - 1], tags, name)]
  }

  lemma DiscMovesSnoc(disc: nat, folder: string, files: seq<string>, tags: (string, string) -> Option<string>, name: Namer, j: nat)
    requires j < |files|
    ensures DiscMoves(disc, folder, files[..j + 1], tags, name)
         == DiscMoves(disc, folder, files[..j], tags, name) + [MoveOf(disc, folder, files[j], tags, name)]
  {
    assert files[..j + 1][..j] == files[..j];
  }

  /** Every file of a disc is moved under the name it is given. */
  lemma {:induction false} DiscMovesAt(disc: nat, folder: string, files: seq<string>, tags: (string, string) -> Option<string>, name: Namer, j: nat)
    requires j < |files|
    ensures DiscMoves(disc, folder, files, tags, name)[j] == MoveOf(disc, folder, files[j], tags, name)
  {
    if j < |files| - 1 {
      DiscMovesAt(disc, folder, files[..|files| - 1], tags, name, j);
    }
  }

  /** The audio files of a disc folder. */
  function DiscFiles(d: (nat, string), listOf: string -> seq<string>): seq<string> {
    AudioFiles(listOf(d.1))
  }

  /** The moves of all discs, disc after disc. */
  function Plan(discs: seq<(nat, string)>, listOf: string -> seq<string>, tags: (string, string) -> Option<string>, name: Namer): seq<Move> {
    if discs == [] then []
    else
      var d := discs[|discs| - 1];
      Plan(discs[..|discs| - 1], listOf, tags, name) + DiscMoves(d.0, d.1, DiscFiles(d, listOf), tags, name)
  }

  /** The number of audio files of all discs. */
  function TrackTotal(discs: seq<(nat, string)>, listOf: string -> seq<string>): nat {
    if discs == [] then 0
    else TrackTotal(discs[..|discs| - 1], listOf) + |DiscFiles(discs[|discs| - 1], listOf)|
  }

  /** The plan has one move per audio file. */
  lemma {:induction false} PlanLength(discs: seq<(nat, string)>, listOf: string -> seq<string>, tags: (string, string) -> Option<string>, name: Namer)
    ensures |Plan(discs, listOf, tags, name)| == TrackTotal(discs, listOf)
  {
    if discs != [] {
      PlanLength(discs[..|discs| - 1], listOf, tags, name);
    }
  }

  // ------------------------------------------------------------ counting

  /** `files_moved`, `metadata_updated` and `errors` of a consolidation. */
  datatype Counts = Counts(moved: nat, updated: nat, errors: seq<string>)

  /** One file: a dry run only counts it; otherwise a failed copy adds
      `"<file>: <reason>"` to the errors, and a copy counts as moved and,
      when its tag write succeeds, as updated. */
  function Step(c: Counts, m: Move, dryRun: bool, copyError: Move -> Option<string>, tagFails: Move -> bool): Counts {
    if dryRun then c.(moved := c.moved + 1)
    else if copyError(m).Some? then c.(errors := c.errors + [m.original + ": " + copyError(m).value])
    else c.(moved := c.moved + 1, updated := c.updated + if tagFails(m) then 0 else 1)
  }

  /** The counts after the moves `ms`, starting from `c`. */
  function TallyFrom(c: Counts, ms: seq<Move>, dryRun: bool, copyError: Move -> Option<string>, tagFails: Move -> bool): (r: Counts)
    ensures r.moved + |r.errors| == c.moved + |c.errors| + |ms|
    ensures r.updated - c.updated <= r.moved - c.moved && c.moved <= r.moved && c.updated <= r.updated
    ensures dryRun ==> r.moved == c.moved + |ms| && r.updated == c.updated && r.errors == c.errors
    ensures c.errors <= r.errors
  {
    if ms == [] then c
    else Step(TallyFrom(c, ms[..|ms| - 1], dryRun, copyError, tagFails), ms[|ms| - 1], dryRun, copyError, tagFails)
  }

  lemma TallySnoc(c: Counts, ms: seq<Move>, m: Move, dryRun: bool, copyError: Move -> Option<string>, tagFails: Move -> bool)
    ensures TallyFrom(c, ms + [m], dryRun, copyError, tagFails)
         == Step(TallyFrom(c, ms, dryRun, copyError, tagFails), m, dryRun, copyError, tagFails)
  {
    assert (ms + [m])[..|ms|] == ms;
  }

  /** Counting two runs of moves one after the other. */
  lemma {:induction false} TallyFromAppend(c: Counts, a: seq<Move>, b: seq<Move>, dryRun: bool, copyError: Move -> Option<string>, tagFails: Move -> bool)
    ensures TallyFrom(c, a + b, dryRun, copyError, tagFails)
         == TallyFrom(TallyFrom(c, a, dryRun, copyError, tagFails), b, dryRun, copyError, tagFails)
  {
    if b != [] {
      TallyFromAppend(c, a, b[..|b| - 1], dryRun, copyError, tagFails);
      assert (a + b)[..|a + b| - 1] == a + b[..|b| - 1];
    } else {
      assert a + b == a;
    }
  }

  /** Outside a dry run, the errors are exactly the failed copies: none
      are added when and only when every copy succeeds. */
  lemma {:induction false} ErrorsAreFailedCopies(c: Counts, ms: seq<Move>, copyError: Move -> Option<string>, tagFails: Move -> bool)
    ensures var r := TallyFrom(c, ms, false, copyError, tagFails);
            (r.errors == c.errors <==> forall j :: 0 <= j < |ms| ==> copyError(ms[j]).None?)
  {
    if ms != [] {
      var init := ms[..|ms| - 1];
      ErrorsAreFailedCopies(c, init, copyError, tagFails);
      if copyError(ms[|ms| - 1]).Some? {
        assert |TallyFrom(c, ms, false, copyError, tagFails).errors| > |c.errors|;
      } else {
        assert forall j :: 0 <= j < |ms| - 1 ==> init[j] == ms[j];
      }
    }
  }

  // ------------------------------------------------------------ the results

  /** A preview of one disc: its number, folder, track count and moves. */
  datatype DiscPreview = DiscPreview(discNumber: nat, sourceFolder: string, trackCount: nat, files: seq<Move>)

  datatype PreviewResult =
    | PreviewNoDiscs
    | Preview(targetFolder: string, discCount: nat, discs: seq<DiscPreview>, totalTracks: nat)

  datatype AlbumResult =
    | NoDiscFolders
    | Consolidated(targetFolder: string, discCount: nat, filesMoved: nat, metadataUpdated: nat,
                   errors: seq<string>, originalFolders: Option<seq<string>>)

  function DiscPreviewOf(d: (nat, string), listOf: string -> seq<string>, tags: (string, string) -> Option<string>, name: Namer): DiscPreview {
    var files := DiscFiles(d, listOf);
    DiscPreview(d.0, d.1, |files|, DiscMoves(d.0, d.1, files, tags, name))
  }

  /** The previews of the discs, in disc order. */
  function Previews(discs: seq<(nat, string)>, listOf: string -> seq<string>, tags: (string, string) -> Option<string>, name: Namer): (r: seq<DiscPreview>)
    ensures |r| == |discs|
  {
    if discs == [] then []
    else Previews(discs[..|discs| - 1], listOf, tags, name) + [DiscPreviewOf(discs[|discs| - 1], listOf, tags, name)]
  }

  /** Each disc's preview lists that disc's moves. */
  lemma {:induction false} PreviewsAt(discs: seq<(nat, string)>, listOf: string -> seq<string>, tags: (string, string) -> Option<string>, name: Namer, i: nat)
    requires i < |discs|
    ensures Previews(discs, listOf, tags, name)[i] == DiscPreviewOf(discs[i], listOf, tags, name)
  {
    if i < |discs| - 1 {
      PreviewsAt(discs[..|discs| - 1], listOf, tags, name, i);
    }
  }

  lemma PreviewsSnoc(discs: seq<(nat, string)>, listOf: string -> seq<string>, tags: (string, string) -> Option<string>, name: Namer, i: nat)
    requires i < |discs|
    ensures Previews(discs[..i + 1], listOf, tags, name) == Previews(discs[..i], listOf, tags, name) + [DiscPreviewOf(discs[i], listOf, tags, name)]
    ensures TrackTotal(discs[..i + 1], listOf) == TrackTotal(discs[..i], listOf) + DiscPreviewOf(discs[i], listOf, tags, name).trackCount
  {
    assert discs[..i + 1][..i] == discs[..i];
  }

  /** The moves of all previews, disc after disc. */
  function PreviewedMoves(ps: seq<DiscPreview>): seq<Move> {
    if ps == [] then [] else PreviewedMoves(ps[..|ps| - 1]) + ps[|ps| - 1].files
  }

  /** The preview lists exactly the moves the consolidation makes, in the
      same order. */
  lemma {:induction false} PreviewListsPlan(discs: seq<(nat, string)>, listOf: string -> seq<string>, tags: (string, string) -> Option<string>, name: Namer)
    ensures PreviewedMoves(Previews(discs, listOf, tags, name)) == Plan(discs, listOf, tags, name)
  {
    if discs != [] {
      var init := discs[..|discs| - 1];
      PreviewListsPlan(init, listOf, tags, name);
      var ps := Previews(discs, listOf, tags, name);
      assert ps[..|ps| - 1] == Previews(init, listOf, tags, name);
    }
  }

  function Folders(discs: seq<(nat, string)>): (r: seq<string>)
    ensures |r| == |discs| && forall i :: 0 <= i < |discs| ==> r[i] == discs[i].1
  {
    if discs == [] then [] else Folders(discs[..|discs| - 1]) + [discs[|discs| - 1].1]
  }

  /** `preview_consolidation`: the disc folders in disc order, each with the
      moves the consolidation makes, and the number of tracks in all. */
  method PreviewConsolidation(listing: seq<string>, album: string, listOf: string -> seq<string>,
                              tags: (string, string) -> Option<string>) returns (p: PreviewResult)
    ensures var found := FindDiscFolders(listing, album);
            (p.PreviewNoDiscs? <==> found == [])
            && (p.Preview? ==>
                  p.targetFolder == album && p.discCount == |found|
                  && p.discs == Previews(found, listOf, tags, NewName)
                  && p.totalTracks == TrackTotal(found, listOf))
  {
    var found := FindDiscFolders(listing, album);
    if found == [] {
      return PreviewNoDiscs;
    }
    var discs, total := PreviewPass(found, listOf, tags, NewName);
    p := Preview(album, |found|, discs, total);
  }

  method PreviewPass(found: seq<(nat, string)>, listOf: string -> seq<string>, tags: (string, string) -> Option<string>, name: Namer)
    returns (discs: seq<DiscPreview>, total: nat)
    ensures discs == Previews(found, listOf, tags, name)
    ensures total == TrackTotal(found, listOf)
  {
    discs, total := [], 0;
    var i := 0;
    while i < |found|
      invariant 0 <= i <= |found|
      invariant discs == Previews(found[..i], listOf, tags, name)
      invariant total == TrackTotal(found[..i], listOf)
    {
      discs, total := PreviewStep(found, listOf, tags, name, i, discs, total);
      i := i + 1;
    }
    assert found[..i] == found;
  }

  /** One disc of the preview: its files are counted and its moves listed. */
  method PreviewStep(found: seq<(nat, string)>, listOf: string -> seq<string>, tags: (string, string) -> Option<string>, name: Namer,
                     i: nat, discs: seq<DiscPreview>, total: nat)
    returns (discs': seq<DiscPreview>, total': nat)
    requires i < |found|
    requires discs == Previews(found[..i], listOf, tags, name)
    requires total == TrackTotal(found[..i], listOf)
    ensures discs' == Previews(found[..i + 1], listOf, tags, name)
    ensures total' == TrackTotal(found[..i + 1], listOf)
  {
    var d := DiscPreviewOf(found[i], listOf, tags, name);
    discs' := discs + [d];
    total' := total + d.trackCount;
    PreviewsSnoc(found, listOf, tags, name, i);
  }

  /** `consolidate_album`: every audio file of every disc, in disc order, is
      copied under its new name (or only counted in a dry run), and the
      original folders are reported when a real run had no error. */
  method ConsolidateAlbum(listing: seq<string>, album: string, listOf: string -> seq<string>,
                          tags: (string, string) -> Option<string>, dryRun: bool,
                          copyError: Move -> Option<string>, tagFails: Move -> bool) returns (r: AlbumResult)
    ensures var found := FindDiscFolders(listing, album);
            (r.NoDiscFolders? <==> found == [])
            && (r.Consolidated? ==>
                  var c := TallyFrom(Counts(0, 0, []), Plan(found, listOf, tags, NewName), dryRun, copyError, tagFails);
                  r.targetFolder == album && r.discCount == |found|
                  && r.filesMoved == c.moved && r.metadataUpdated == c.updated && r.errors == c.errors
                  && r.originalFolders == (if !dryRun && c.errors == [] then Some(Folders(found)) else None))
  {
    var found := FindDiscFolders(listing, album);
    if found == [] {
      return NoDiscFolders;
    }
    var c := ConsolidatePass(found, listOf, tags, NewName, dryRun, copyError, tagFails);
    var folders := if !dryRun && c.errors == [] then Some(Folders(found)) else None;
    r := Consolidated(album, |found|, c.moved, c.updated, c.errors, folders);
  }

  /** The discs, one after the other. */
  method ConsolidatePass(found: seq<(nat, string)>, listOf: string -> seq<string>, tags: (string, string) -> Option<string>,
                         name: Namer, dryRun: bool, copyError: Move -> Option<string>, tagFails: Move -> bool)
    returns (c: Counts)
    ensures c == TallyFrom(Counts(0, 0, []), Plan(found, listOf, tags, name), dryRun, copyError, tagFails)
  {
    c := Counts(0, 0, []);
    var i := 0;
    while i < |found|
      invariant 0 <= i <= |found|
      invariant c == TallyFrom(Counts(0, 0, []), Plan(found[..i], listOf, tags, name), dryRun, copyError, tagFails)
    {
      var d := found[i];
      var files := DiscFiles(d, listOf);
      c := DiscPass(c, d.0, d.1, files, tags, name, dryRun, copyError, tagFails);
      assert found[..i + 1][..i] == found[..i];
      TallyFromAppend(Counts(0, 0, []), Plan(found[..i], listOf, tags, name), DiscMoves(d.0, d.1, files, tags, name),
                      dryRun, copyError, tagFails);
      i := i + 1;
    }
    assert found[..i] == found;
  }

  /** The files of one disc, one after the other. */
  method DiscPass(c0: Counts, disc: nat, folder: string, files: seq<string>, tags: (string, string) -> Option<string>,
                  name: Namer, dryRun: bool, copyError: Move -> Option<string>, tagFails: Move -> bool) returns (c: Counts)
    ensures c == TallyFrom(c0, DiscMoves(disc, folder, files, tags, name), dryRun, copyError, tagFails)
  {
    c := c0;
    var j := 0;
    while j < |files|
      invariant 0 <= j <= |files|
      invariant c == TallyFrom(c0, DiscMoves(disc, folder, files[..j], tags, name), dryRun, copyError, tagFails)
    {
      var m := MoveOf(disc, folder, files[j], tags, name);
      c := MoveOne(c, m, dryRun, copyError, tagFails);
      DiscMovesSnoc(disc, folder, files, tags, name, j);
      TallySnoc(c0, DiscMoves(disc, folder, files[..j], tags, name), m, dryRun, copyError, tagFails);
      j := j + 1;
    }
    assert files[..j] == files;
  }

  /** One file of the loop: copied and tagged, or its error recorded. */
  method MoveOne(c0: Counts, m: Move, dryRun: bool, copyError: Move -> Option<string>, tagFails: Move -> bool)
    returns (c: Counts)
    ensures c == Step(c0, m, dryRun, copyError, tagFails)
  {
    c := c0;
    if dryRun {
      c := c.(moved := c.moved + 1);
    } else {
      var err := copyError(m);
      if err.Some? {
        c := c.(errors := c.errors + [m.original + ": " + err.value]);
      } else {
        c := c.(moved := c.moved + 1);
        if !tagFails(m) {
          c := c.(updated := c.updated + 1);
        }
      }
    }
  }

  // -------------------------------------------- the preview's names as written

  /** The name `preview_consolidation` shows for a file: the same shape as
      `NewName`, but made from the title without removing a leading number
      first. */
  function PreviewNameAsWritten(disc: nat, file: string, title: string): string {
    NameShape(disc, file, MakeSafeFilename(title))
  }

  /** A number, a blank and a word is a tidy title. */
  lemma NumberedTitleTidy(ds: string, w: string)
    requires ds != [] && AllDigits(ds) && IsWord(w)
    ensures Tidy(ds + (" " + w))
  {
    var t := ds + (" " + w);
    forall i | 0 <= i < |t| && IsSpace(t[i])
      ensures t[i] == ' ' && 0 < i < |t| - 1 && !IsSpace(t[i + 1])
    {
      if i == |ds| {
        assert t[i + 1] == w[0];
      }
    }
  }

  /** For a file titled with a track number before a word (a file
      `01 Intro.mp3` without a title tag has the stem `01 Intro`), the
      preview shows a different name from the one the file gets. */
  lemma PreviewNameDiffers(disc: nat, file: string, ds: string, w: string)
    requires ds != [] && AllDigits(ds) && IsWord(w) && !IsDigit(w[0])
    requires forall x :: x in w ==> !Unsafe(x)
    ensures PreviewNameAsWritten(disc, file, ds + (" " + w)) != NewName(disc, file, ds + (" " + w))
  {
    SafeTitles(ds, w);
  }

  /** Such a title is shown as it is. */
  lemma SafeTitles(ds: string, w: string)
    requires ds != [] && AllDigits(ds) && IsWord(w) && !IsDigit(w[0])
    requires forall x :: x in w ==> !Unsafe(x)
    ensures MakeSafeFilename(ds + (" " + w)) == ds + (" " + w)
    ensures MakeSafeFilename(CleanTitle(ds + (" " + w))) == w
  {
    NumberedTitleSafe(ds, w);
    NumberedTitleCleaned(ds, w);
    WordSafe(w);
  }

  lemma NumberedTitleCleaned(ds: string, w: string)
    requires ds != [] && AllDigits(ds) && IsWord(w) && !IsDigit(w[0])
    ensures CleanTitle(ds + (" " + w)) == w
  {
    CleanTitleDropsNumber(ds, " ", w);
  }

  lemma WordSafe(w: string)
    requires IsWord(w) && forall x :: x in w ==> !Unsafe(x)
    ensures MakeSafeFilename(w) == w
  {
    SafeNameUnchanged(w);
  }

  /** A number, a blank and a word with no unsafe characters is kept as it is. */
  lemma NumberedTitleSafe(ds: string, w: string)
    requires ds != [] && AllDigits(ds) && IsWord(w)
    requires forall x :: x in w ==> !Unsafe(x)
    ensures MakeSafeFilename(ds + (" " + w)) == ds + (" " + w)
  {
    var title := ds + (" " + w);
    NumberedTitleTidy(ds, w);
    forall x | x in title ensures !Unsafe(x) {
      if x in ds {
        var i :| 0 <= i < |ds| && ds[i] == x;
      }
    }
    SafeNameUnchanged(title);
  }
}
