/** The names the pipeline gives to files and folders: the file-name
    cleaner, the track number and title read back from a file name, the
    synced file name built from tags, and the folder-name standardisation
    with its disc-suffix detection. The regular expressions involved are
    written out as explicit matchers. */
module MusicNames {
  import opened Wrappers
  import opened Text
  import Patterns
  import Fixer

  // ------------------------------------------------------------ safe names

  /** `\[\s*\]` (or the same with another pair) at the front of `t`: the
      length of the match, 0 when there is none. */
  function EmptyPairLen(t: string, open: char, close: char): (n: nat)
    ensures n <= |t|
    ensures n > 0 ==> n >= 2 && t[0] == open && t[n - 1] == close
  {
    if t != [] && t[0] == open then
      var k := 1 + |LeadingSpaces(t[1..])|;
      if k < |t| && t[k] == close then k + 1 else 0
    else 0
  }

  /** A prefix of a tidy string that does not end in whitespace is tidy. */
  lemma TidyPrefix(s: string, k: nat)
    requires Tidy(s) && k <= |s| && (k == 0 || !IsSpace(s[k - 1]))
    ensures Tidy(s[..k])
  {
    var r := s[..k];
    forall i | 0 <= i < |r| && IsSpace(r[i]) ensures r[i] == ' ' && 0 < i < |r| - 1 && !IsSpace(r[i + 1]) {
      assert r[i] == s[i];
      assert r[i + 1] == s[i + 1];
    }
  }

  /** The character rules of `_make_filename_safe`: `/` and `\` become
      " - ", `:` becomes " -", `"` becomes `'`, `<>|?*` are deleted, then
      empty `[]`, `()` and `{}` pairs are removed, one pass each in that order. */
  function SafeChars(name: string): (e: string)
    ensures forall x :: x in e ==> !Fixer.FilenameInvalid(x)
  {
    var d := DeleteChars(Fixer.ReplaceSeparators(name), {'<', '>', '|', '?', '*'});
    var e1 := Patterns.RemoveMatches(d, t => EmptyPairLen(t, '[', ']'));
    var e2 := Patterns.RemoveMatches(e1, t => EmptyPairLen(t, '(', ')'));
    Patterns.RemoveMatches(e2, t => EmptyPairLen(t, '{', '}'))
  }

  /** Whitespace collapsed, then trailing dots and blanks dropped. */
  function TidyEnd(e: string): (g: string)
    ensures Tidy(g)
    ensures forall x :: x in g ==> x == ' ' || x in e
  {
    var f := Collapse(e);
    var g := TrimEndWith(f, {'.', ' '});
    TidyPrefix(f, |g|);
    assert forall x :: x in g ==> x in f;
    g
  }

  /** `_make_filename_safe` of the pipeline: the character rules, the
      whitespace and trailing-dot clean-up, then a cut to 200 characters
      and a strip. */
  function MakeFilenameSafe(name: string): (r: string)
    ensures forall x :: x in r ==> !Fixer.FilenameInvalid(x)
    ensures Tidy(r) && |r| <= 200
  {
    var e := SafeChars(name);
    var g := TidyEnd(e);
    SpacesKeepValid(e, g);
    Fixer.CapLength(g)
  }

  /** Adding blanks to valid characters keeps them valid. */
  lemma SpacesKeepValid(e: string, g: string)
    requires forall x :: x in e ==> !Fixer.FilenameInvalid(x)
    requires forall x :: x in g ==> x == ' ' || x in e
    ensures forall x :: x in g ==> !Fixer.FilenameInvalid(x)
  {
  }

  // ------------------------------------------------ reading a file name

  /** The digits of `Track\s*(\d+)` whose "track" starts at `q`. */
  function TrackDigits(t: string, q: nat): (d: string)
    requires q + 5 <= |t|
    ensures AllDigits(d)
  {
    var a := q + 5 + |LeadingSpaces(t[q + 5..])|;
    LeadingDigits(t[a..])
  }

  /** `Track\s*(\d+)`, case-insensitive, matches at `q`. */
  predicate TrackAt(t: string, q: nat) {
    Patterns.LiteralAt(t, q, "track") && TrackDigits(t, q) != []
  }

  /** The digits after a leading `\d+-`, when there are any. */
  function DiscTrackDigits(t: string): (d: string)
    ensures AllDigits(d)
  {
    var d1 := LeadingDigits(t);
    if d1 != [] && |d1| < |t| && t[|d1|] == '-' then LeadingDigits(t[|d1| + 1..]) else []
  }

  /** `^(\d+)\s` matches: leading digits followed by whitespace. */
  predicate SpacedDigits(t: string) {
    var d1 := LeadingDigits(t);
    d1 != [] && |d1| < |t| && IsSpace(t[|d1|])
  }

  /** `_extract_track_from_filename`: the track of a "D-TT" prefix, else
      leading digits followed by whitespace, else the number after the
      first "Track", else 1. */
  function ExtractTrackFromFilename(filename: string): (n: nat)
    ensures DiscTrackDigits(filename) != [] ==> n == DigitsValue(DiscTrackDigits(filename))
    ensures DiscTrackDigits(filename) == [] && SpacedDigits(filename) ==> n == DigitsValue(LeadingDigits(filename))
    ensures DiscTrackDigits(filename) == [] && !SpacedDigits(filename) ==>
      match Patterns.FirstWhere(filename, TrackAt, 0)
      case Some(q) => n == DigitsValue(TrackDigits(filename, q))
      case None => n == 1
  {
    var dt := DiscTrackDigits(filename);
    if dt != [] then DigitsValue(dt)
    else if SpacedDigits(filename) then DigitsValue(LeadingDigits(filename))
    else
      match Patterns.FirstWhere(filename, TrackAt, 0)
      case Some(q) => DigitsValue(TrackDigits(filename, q))
      case None => 1
  }

  /** When neither prefix pattern applies, the leftmost "Track N" (any
      letter case, blanks allowed before N) gives N, wherever it stands. */
  lemma TrackWordNumber(filename: string, q: nat)
    requires DiscTrackDigits(filename) == [] && !SpacedDigits(filename)
    requires TrackAt(filename, q) && forall j :: 0 <= j < q ==> !TrackAt(filename, j)
    ensures ExtractTrackFromFilename(filename) == DigitsValue(TrackDigits(filename, q))
  {
    var f := Patterns.FirstWhere(filename, TrackAt, 0);
    assert f.Some? && f.value == q;
  }

  /** A name that none of the three patterns matches gets track 1. */
  lemma DefaultTrack(filename: string)
    requires DiscTrackDigits(filename) == [] && !SpacedDigits(filename)
    requires forall q :: 0 <= q <= |filename| ==> !TrackAt(filename, q)
    ensures ExtractTrackFromFilename(filename) == 1
  {
    assert Patterns.FirstWhere(filename, TrackAt, 0).None?;
  }

  /** In particular "01.mp3", "7-x.flac" or "5abc": digits followed by
      neither whitespace nor a dash and digits, with no "track" in the name. */
  lemma DigitsWithoutSeparator(filename: string)
    requires LeadingDigits(filename) != [] && |LeadingDigits(filename)| < |filename|
    requires !IsSpace(filename[|LeadingDigits(filename)|])
    requires filename[|LeadingDigits(filename)|] != '-' || LeadingDigits(filename[|LeadingDigits(filename)| + 1..]) == []
    requires forall q :: 0 <= q <= |filename| ==> !Patterns.LiteralAt(filename, q, "track")
    ensures ExtractTrackFromFilename(filename) == 1
  {
    DefaultTrack(filename);
  }

  /** The index of the last `.` in `s`, or -1. */
  function LastDot(s: string): (k: int)
    ensures -1 <= k < |s|
    ensures k >= 0 ==> s[k] == '.'
    ensures forall j :: k < j < |s| ==> s[j] != '.'
  {
    if s == [] then -1
    else if s[|s| - 1] == '.' then |s| - 1
    else LastDot(s[..|s| - 1])
  }

  /** `Path(name).stem`: the name without its last suffix; a leading or
      final dot does not start a suffix. */
  function Stem(name: string): (r: string)
    ensures r <= name
  {
    var i := LastDot(name);
    if 0 < i < |name| - 1 then name[..i] else name
  }

  /** `^\d+-\d+\s+` at the front of `t`. */
  function DiscTrackPrefixLen(t: string): (n: nat)
    ensures n <= |t|
  {
    var d1 := LeadingDigits(t);
    if d1 != [] && |d1| < |t| && t[|d1|] == '-' then
      var d2 := LeadingDigits(t[|d1| + 1..]);
      var k := |d1| + 1 + |d2|;
      var sp := LeadingSpaces(t[k..]);
      if d2 != [] && sp != [] then k + |sp| else 0
    else 0
  }

  /** `^\d+\s+` at the front of `t`. */
  function TrackPrefixLen(t: string): (n: nat)
    ensures n <= |t|
  {
    var d := LeadingDigits(t);
    var sp := LeadingSpaces(t[|d|..]);
    if d != [] && sp != [] then |d| + |sp| else 0
  }

  /** `^Track\s*\d+\s*`, case-insensitive, at the front of `t`. */
  function TrackWordPrefixLen(t: string): (n: nat)
    ensures n <= |t|
  {
    if Patterns.LiteralAt(t, 0, "track") && TrackDigits(t, 0) != [] then
      var k := 5 + |LeadingSpaces(t[5..])| + |TrackDigits(t, 0)|;
      k + |LeadingSpaces(t[k..])|
    else 0
  }

  /** `_extract_title_from_filename`: the stem with a "D-TT ", then a
      "TT ", then a "Track N " prefix removed, stripped. */
  function ExtractTitleFromFilename(filename: string): (r: string)
    ensures |r| <= |filename|
  {
    var a := Stem(filename);
    var b := a[DiscTrackPrefixLen(a)..];
    var c := b[TrackPrefixLen(b)..];
    Strip(c[TrackWordPrefixLen(c)..])
  }

  // ---------------------------------------------------------- synced names

  /** The file name `_sync_filenames` gives a file: `{disc}-{NN} {title}{ext}`
      on a multi-disc album (more than one disc in total, or a disc number
      above 1), else `{NN} {title}{ext}`; NN is the track number padded to
      two digits ("00" when missing). An untitled file gets no name. */
  function SyncedName(disc: int, totalDiscs: int, trackNum: string, title: string, ext: string)
    : (r: Option<string>)
    ensures title == [] <==> r.None?
    ensures r.Some? ==> r.value == NameFormat(totalDiscs > 1 || disc > 1, IntToString(disc),
                                              ZFill(if trackNum == [] then "0" else trackNum, 2),
                                              MakeFilenameSafe(title), ext)
  {
    if title == [] then None
    else
      var tn := ZFill(if trackNum == [] then "0" else trackNum, 2);
      Some(NameFormat(totalDiscs > 1 || disc > 1, IntToString(disc), tn, MakeFilenameSafe(title), ext))
  }

  /** The two layouts of a synced name. */
  function NameFormat(multiDisc: bool, disc: string, tn: string, safe: string, ext: string): (r: string)
    ensures multiDisc ==> r == disc + ("-" + (tn + (" " + (safe + ext))))
    ensures !multiDisc ==> r == tn + (" " + (safe + ext))
  {
    if multiDisc then disc + ("-" + (tn + (" " + (safe + ext)))) else tn + (" " + (safe + ext))
  }

  /** What follows two leading pieces. */
  lemma SkipTwo(a: string, b: string, c: string)
    ensures (a + (b + c))[|a| + |b|..] == c
  {
    var s := a + (b + c);
    assert forall i :: 0 <= i < |c| ==> s[|a| + |b| + i] == c[i];
  }

  /** What follows three leading pieces. */
  lemma SkipThree(a: string, b: string, c: string, e: string)
    ensures (a + (b + (c + e)))[|a| + |b| + |c|..] == e
  {
    var s := a + (b + (c + e));
    assert forall i :: 0 <= i < |e| ==> s[|a| + |b| + |c| + i] == e[i];
  }

  /** What follows four leading pieces. */
  lemma SkipFour(a: string, b: string, c: string, e: string, f: string)
    ensures (a + (b + (c + (e + f))))[|a| + |b| + |c| + |e|..] == f
  {
    var s := a + (b + (c + (e + f)));
    assert forall i :: 0 <= i < |f| ==> s[|a| + |b| + |c| + |e| + i] == f[i];
  }

  /** Reading the track back from "NN rest". */
  lemma TrackOfSingle(tn: string, rest: string)
    requires tn != [] && AllDigits(tn)
    ensures ExtractTrackFromFilename(tn + (" " + rest)) == DigitsValue(tn)
  {
    var name := tn + (" " + rest);
    LeadingDigitsOf(tn, " " + rest);
    assert name[|tn|] == ' ';
    assert DiscTrackDigits(name) == [];
  }

  /** Reading the track back from "D-NN rest". */
  lemma TrackOfMulti(d: string, tn: string, rest: string)
    requires d != [] && AllDigits(d) && tn != [] && AllDigits(tn)
    ensures ExtractTrackFromFilename(d + ("-" + (tn + (" " + rest)))) == DigitsValue(tn)
  {
    var name := d + ("-" + (tn + (" " + rest)));
    LeadingDigitsOf(d, "-" + (tn + (" " + rest)));
    SkipTwo(d, "-", tn + (" " + rest));
    LeadingDigitsOf(tn, " " + rest);
    assert DiscTrackDigits(name) == tn;
  }

  /** The track number written into a synced name is the one read back. */
  lemma TrackOfSyncedName(disc: nat, totalDiscs: int, track: nat, title: string, ext: string)
    requires title != []
    ensures ExtractTrackFromFilename(SyncedName(disc, totalDiscs, NatToString(track), title, ext).value) == track
  {
    var tn := ZFill(NatToString(track), 2);
    ZFillValue(NatToString(track), 2);
    NatToStringValue(track);
    var safe := MakeFilenameSafe(title);
    if totalDiscs > 1 || disc > 1 {
      TrackOfMulti(IntToString(disc), tn, safe + ext);
    } else {
      TrackOfSingle(tn, safe + ext);
    }
  }

  /** "NN safe" opens with a track prefix of |NN| + 1 characters and no
      disc-track prefix. */
  lemma SinglePrefixes(tn: string, safe: string)
    requires tn != [] && AllDigits(tn)
    requires safe == [] || !IsSpace(safe[0])
    ensures DiscTrackPrefixLen(tn + (" " + safe)) == 0
    ensures TrackPrefixLen(tn + (" " + safe)) == |tn| + 1
  {
    var body := tn + (" " + safe);
    LeadingDigitsOf(tn, " " + safe);
    SkipTwo(tn, [], " " + safe);
    assert body[|tn|] == ' ';
    assert LeadingSpaces(" " + safe) == " " by {
      assert (" " + safe)[1..] == safe;
    }
  }

  /** "D-NN safe" opens with a disc-track prefix of |D| + |NN| + 2 characters. */
  lemma MultiPrefix(d: string, tn: string, safe: string)
    requires d != [] && AllDigits(d) && tn != [] && AllDigits(tn)
    requires safe == [] || !IsSpace(safe[0])
    ensures DiscTrackPrefixLen(d + ("-" + (tn + (" " + safe)))) == |d| + |tn| + 2
    ensures (d + ("-" + (tn + (" " + safe))))[|d| + |tn| + 2..] == safe
  {
    SkipFour(d, "-", tn, " ", safe);
    var body := d + ("-" + (tn + (" " + safe)));
    var t := tn + (" " + safe);
    LeadingDigitsOf(d, "-" + t);
    SkipTwo(d, "-", t);
    LeadingDigitsOf(tn, " " + safe);
    SkipThree(d, "-", tn, " " + safe);
    assert LeadingSpaces(" " + safe) == " " by {
      assert (" " + safe)[1..] == safe;
    }
  }

  /** What is left of a title once no prefix matches it is the title. */
  lemma TitleAfterPrefixes(safe: string)
    requires Tidy(safe)
    requires safe == [] || (!IsDigit(safe[0]) && !Patterns.LiteralAt(safe, 0, "track"))
    ensures safe == [] || !IsSpace(safe[0])
    ensures TrackPrefixLen(safe) == 0 && safe[TrackPrefixLen(safe)..] == safe
    ensures Strip(safe[TrackWordPrefixLen(safe)..]) == safe
  {
    LeadingSpacesOf(safe);
    NoTrackPrefix(safe);
    assert safe[0..] == safe;
    assert TrackWordPrefixLen(safe) == 0;
    StripTidy(safe);
  }

  /** The clean title written into a synced name is the one read back,
      when it opens with neither a digit nor the word "track" and the
      extension is one dot-led, dot-free suffix. */
  lemma TitleOfSyncedName(disc: nat, totalDiscs: int, track: nat, title: string, ext: string)
    requires title != []
    requires var safe := MakeFilenameSafe(title);
             safe == [] || (!IsDigit(safe[0]) && !Patterns.LiteralAt(safe, 0, "track"))
    requires |ext| >= 2 && ext[0] == '.' && '.' !in ext[1..]
    ensures ExtractTitleFromFilename(SyncedName(disc, totalDiscs, NatToString(track), title, ext).value)
            == MakeFilenameSafe(title)
  {
    var safe := MakeFilenameSafe(title);
    var tn := ZFill(NatToString(track), 2);
    if totalDiscs > 1 || disc > 1 {
      TitleOfMultiName(IntToString(disc), tn, safe, ext);
    } else {
      TitleOfSingleName(tn, safe, ext);
    }
  }

  /** The title read back from "D-NN safe.ext" is `safe`. */
  lemma TitleOfMultiName(d: string, tn: string, safe: string, ext: string)
    requires d != [] && AllDigits(d) && tn != [] && AllDigits(tn) && Tidy(safe)
    requires safe == [] || (!IsDigit(safe[0]) && !Patterns.LiteralAt(safe, 0, "track"))
    requires |ext| >= 2 && ext[0] == '.' && '.' !in ext[1..]
    ensures ExtractTitleFromFilename(d + ("-" + (tn + (" " + (safe + ext))))) == safe
  {
    MultiStem(d, tn, safe, ext);
    MultiPrefix(d, tn, safe);
    TitleOfStem(d + ("-" + (tn + (" " + (safe + ext)))), d + ("-" + (tn + (" " + safe))), safe);
  }

  /** The stem of "D-NN safe.ext" is "D-NN safe". */
  lemma MultiStem(d: string, tn: string, safe: string, ext: string)
    requires d != [] && |ext| >= 2 && ext[0] == '.' && '.' !in ext[1..]
    ensures Stem(d + ("-" + (tn + (" " + (safe + ext))))) == d + ("-" + (tn + (" " + safe)))
  {
    var body := d + ("-" + (tn + (" " + safe)));
    assert d + ("-" + (tn + (" " + (safe + ext)))) == body + ext;
    StemOf(body, ext);
  }

  /** The title of a name whose stem loses exactly its disc-track prefix. */
  lemma TitleOfStem(name: string, body: string, safe: string)
    requires Stem(name) == body && body[DiscTrackPrefixLen(body)..] == safe
    requires Tidy(safe)
    requires safe == [] || (!IsDigit(safe[0]) && !Patterns.LiteralAt(safe, 0, "track"))
    ensures ExtractTitleFromFilename(name) == safe
  {
    TitleAfterPrefixes(safe);
    TitleSteps(name, body, safe, safe, safe);
  }

  /** The title read back, one prefix at a time: the stem `a`, then `b`
      without a disc-track prefix, then `c` without a track number, then
      stripped after any "track N" word. */
  lemma TitleSteps(name: string, a: string, b: string, c: string, t: string)
    requires Stem(name) == a && a[DiscTrackPrefixLen(a)..] == b && b[TrackPrefixLen(b)..] == c
    requires Strip(c[TrackWordPrefixLen(c)..]) == t
    ensures ExtractTitleFromFilename(name) == t
  {
  }

  /** The title read back from "NN safe.ext" is `safe`. */
  lemma TitleOfSingleName(tn: string, safe: string, ext: string)
    requires tn != [] && AllDigits(tn) && Tidy(safe)
    requires safe == [] || (!IsDigit(safe[0]) && !Patterns.LiteralAt(safe, 0, "track"))
    requires |ext| >= 2 && ext[0] == '.' && '.' !in ext[1..]
    ensures ExtractTitleFromFilename(tn + (" " + (safe + ext))) == safe
  {
    SingleStem(tn, safe, ext);
    TitleOfSingleStem(tn + (" " + (safe + ext)), tn, safe);
  }

  /** The stem of "NN safe.ext" is "NN safe". */
  lemma SingleStem(tn: string, safe: string, ext: string)
    requires tn != [] && |ext| >= 2 && ext[0] == '.' && '.' !in ext[1..]
    ensures Stem(tn + (" " + (safe + ext))) == tn + (" " + safe)
  {
    var body := tn + (" " + safe);
    assert tn + (" " + (safe + ext)) == body + ext;
    StemOf(body, ext);
  }

  /** The title of a name whose stem is "NN safe". */
  lemma TitleOfSingleStem(name: string, tn: string, safe: string)
    requires tn != [] && AllDigits(tn) && Tidy(safe)
    requires safe == [] || (!IsDigit(safe[0]) && !Patterns.LiteralAt(safe, 0, "track"))
    requires Stem(name) == tn + (" " + safe)
    ensures ExtractTitleFromFilename(name) == safe
  {
    var body := tn + (" " + safe);
    TitleAfterPrefixes(safe);
    SinglePrefixes(tn, safe);
    SkipTwo(tn, " ", safe);
    assert body[DiscTrackPrefixLen(body)..] == body;
    assert body[TrackPrefixLen(body)..] == safe;
    TitleSteps(name, body, body, safe, safe);
  }

  lemma LeadingSpacesOf(safe: string)
    requires Tidy(safe)
    ensures LeadingSpaces(" " + safe) == " "
    ensures LeadingSpaces(safe) == []
  {
    assert (" " + safe)[1..] == safe;
    if safe != [] {
      assert !IsSpace(safe[0]);
    }
  }

  lemma NoTrackPrefix(safe: string)
    requires safe == [] || !IsDigit(safe[0])
    ensures TrackPrefixLen(safe) == 0
  {
  }

  /** The stem of `body + ext` is `body` for a single dot-led suffix. */
  lemma StemOf(body: string, ext: string)
    requires body != [] && |ext| >= 2 && ext[0] == '.' && '.' !in ext[1..]
    ensures Stem(body + ext) == body
  {
    var s := body + ext;
    forall j | |body| < j < |s| ensures s[j] != '.' {
      assert s[j] == ext[1..][j - |body| - 1];
    }
    assert s[|body|] == '.';
    var k := LastDot(s);
    assert k >= |body|;
    assert k <= |body|;
    assert s[..k] == body;
  }

  // ---------------------------------------------------------- folder names

  /** `re.sub(r'_\s+', ' - ', s)`. */
  function UnderscoreSpaces(s: string): (r: string)
    ensures '_' !in s ==> r == s
    decreases |s|
  {
    if s == [] then []
    else if s[0] == '_' && |s| > 1 && IsSpace(s[1]) then
      " - " + UnderscoreSpaces(s[1 + |LeadingSpaces(s[1..])|..])
    else [s[0]] + UnderscoreSpaces(s[1..])
  }

  /** `re.sub(r'_([A-Z])', r' - \1', s)`: an underscore before an ASCII
      capital becomes " - ". */
  function UnderscoreCapitals(s: string): (r: string)
    ensures '_' !in s ==> r == s
    decreases |s|
  {
    if s == [] then []
    else if s[0] == '_' && |s| > 1 && 'A' <= s[1] <= 'Z' then " - " + [s[1]] + UnderscoreCapitals(s[2..])
    else [s[0]] + UnderscoreCapitals(s[1..])
  }

  /** The standardised folder name: both underscore rules, then whitespace
      collapsed. */
  function StandardName(oldName: string): (r: string)
    ensures Tidy(r)
    ensures '_' !in oldName ==> r == Collapse(oldName)
  {
    Collapse(UnderscoreCapitals(UnderscoreSpaces(oldName)))
  }

  /** Where a disc-number suffix `t[start..]` was found, its number and the
      name left when it is removed and the rest stripped. */
  datatype DiscSuffix = DiscSuffix(start: nat, disc: nat)

  /** `\s+<kw>\s+(\d+)$` ending a tidy `t` (kw is "disc" or "disk"). */
  function WordSuffix(t: string, kw: string): (m: Option<DiscSuffix>)
    requires Tidy(t)
    ensures m.Some? ==> m.value.start < |t|
  {
    var d := TrailingDigits(t);
    var n := |t| - |d|;
    if d != [] && n >= |kw| + 2 && t[n - 1] == ' ' && Patterns.LiteralAt(t, n - 1 - |kw|, kw)
       && t[n - 2 - |kw|] == ' '
    then Some(DiscSuffix(n - 2 - |kw|, DigitsValue(d)))
    else None
  }

  /** `\s+CD\s*(\d+)$` ending a tidy `t`. */
  function CdSuffix(t: string): (m: Option<DiscSuffix>)
    requires Tidy(t)
    ensures m.Some? ==> m.value.start < |t|
  {
    var d := TrailingDigits(t);
    var n := |t| - |d|;
    if d == [] then None
    else if n >= 4 && t[n - 1] == ' ' && Patterns.LiteralAt(t, n - 3, "cd") && t[n - 4] == ' ' then
      Some(DiscSuffix(n - 4, DigitsValue(d)))
    else if n >= 3 && Patterns.LiteralAt(t, n - 2, "cd") && t[n - 3] == ' ' then
      Some(DiscSuffix(n - 3, DigitsValue(d)))
    else None
  }

  /** `\s*\[Disc\s+(\d+)\]$` (or with parentheses) ending a tidy `t`; the
      start is that of the bracket, the blank before it being stripped anyway. */
  function BracketSuffix(t: string, open: char, close: char): (m: Option<DiscSuffix>)
    requires Tidy(t)
    ensures m.Some? ==> m.value.start < |t|
  {
    if t == [] || t[|t| - 1] != close then None
    else
      var inner := t[..|t| - 1];
      var d := TrailingDigits(inner);
      var n := |inner| - |d|;
      if d != [] && n >= 6 && t[n - 1] == ' ' && Patterns.LiteralAt(t, n - 5, "disc") && t[n - 6] == open
      then Some(DiscSuffix(n - 6, DigitsValue(d)))
      else None
  }

  /** The disc patterns of `_standardize_folder_name`, tried in order:
      " Disc N", " CD N" / " CDN", " Disk N", "[Disc N]", "(Disc N)". */
  function DetectDisc(t: string): (m: Option<DiscSuffix>)
    requires Tidy(t)
    ensures m.Some? ==> m.value.start < |t|
  {
    var p1 := WordSuffix(t, "disc");
    if p1.Some? then p1
    else
      var p2 := CdSuffix(t);
      if p2.Some? then p2
      else
        var p3 := WordSuffix(t, "disk");
        if p3.Some? then p3
        else
          var p4 := BracketSuffix(t, '[', ']');
          if p4.Some? then p4 else BracketSuffix(t, '(', ')')
  }

  /** The album name once a detected disc suffix is removed. */
  function CleanAlbumName(t: string): (r: string)
    requires Tidy(t)
    ensures DetectDisc(t).None? ==> r == t
  {
    var m := DetectDisc(t);
    if m.Some? then Strip(t[..m.value.start]) else t
  }

  /** A tidy name followed by " Disc N" is recognised as disc N of that name. */
  lemma DiscSuffixDetected(name: string, n: nat)
    requires Tidy(name) && name != []
    ensures Tidy(name + " Disc " + NatToString(n))
    ensures DetectDisc(name + " Disc " + NatToString(n)) == Some(DiscSuffix(|name|, n))
    ensures CleanAlbumName(name + " Disc " + NatToString(n)) == name
  {
    var d := NatToString(n);
    TidyDiscName(name, d);
    DiscWordAt(name, d);
    NatToStringValue(n);
    var t := name + " Disc " + d;
    assert t[..|name|] == name;
    StripTidy(name);
  }

  lemma DiscWordAt(name: string, d: string)
    requires Tidy(name) && name != [] && d != [] && AllDigits(d)
    requires Tidy(name + " Disc " + d)
    ensures WordSuffix(name + " Disc " + d, "disc") == Some(DiscSuffix(|name|, DigitsValue(d)))
  {
    var p := name + " Disc ";
    var t := p + d;
    assert TrailingDigits(t) == d by {
      TrailingDigitsOf(p, d);
    }
    assert Patterns.LiteralAt(t, |name| + 1, "disc") by {
      assert t[|name| + 1..|name| + 5] == "Disc";
      assert Lower("Disc") == "disc";
    }
    assert t[|name|] == ' ' && t[|name| + 5] == ' ';
  }

  lemma TidyDiscName(name: string, d: string)
    requires Tidy(name) && name != [] && d != [] && AllDigits(d)
    ensures Tidy(name + " Disc " + d)
  {
    var t := name + " Disc " + d;
    forall i | |name| + 6 <= i < |t| ensures !IsSpace(t[i]) {
      assert t[i] == d[i - |name| - 6];
    }
    forall i | 0 <= i < |name| ensures t[i] == name[i] {
    }
    TidyEnds(name);
  }

  /** What `_standardize_folder_name` reports. */
  datatype FolderRename = FolderRename(renamed: bool, oldName: string, newName: string, error: Option<string>,
                                       disc: Option<nat>, cleanName: string)

  /** `_standardize_folder_name` on a folder named `oldName`: unchanged
      names and taken targets are not renamed; the disc suffix is detected
      on the standardised name either way. The file system answers whether
      the target exists and whether the rename fails. */
  function StandardizeFolderName(oldName: string, targetExists: bool, renameError: Option<string>)
    : (r: FolderRename)
    ensures r.renamed <==> StandardName(oldName) != oldName && !targetExists && renameError.None?
    ensures r.renamed ==> r.newName == StandardName(oldName)
    ensures !r.renamed ==> r.newName == oldName
    ensures r.disc == (var m := DetectDisc(StandardName(oldName)); if m.Some? then Some(m.value.disc) else None)
    ensures r.cleanName == CleanAlbumName(StandardName(oldName))
  {
    var newName := StandardName(oldName);
    var m := DetectDisc(newName);
    var disc := if m.Some? then Some(m.value.disc) else None;
    var clean := CleanAlbumName(newName);
    if newName == oldName then FolderRename(false, oldName, oldName, None, disc, clean)
    else if targetExists then FolderRename(false, oldName, oldName, Some("target_exists"), disc, clean)
    else if renameError.Some? then FolderRename(false, oldName, oldName, renameError, disc, clean)
    else FolderRename(true, oldName, newName, None, disc, clean)
  }

  /** A tidy name without underscores is never renamed. */
  lemma TidyNameKept(oldName: string, targetExists: bool, renameError: Option<string>)
    requires '_' !in oldName && Collapse(oldName) == oldName
    ensures !StandardizeFolderName(oldName, targetExists, renameError).renamed
  {
  }

  // -------------------------------------------------------- disc folders

  /** The disc total of `_process_disc_folder`: the looked-up count, raised
      to the detected disc number when that is larger. */
  function DiscTotal(lookedUp: int, disc: int): (r: int)
    ensures r >= disc && r >= lookedUp
    ensures r == lookedUp || r == disc
  {
    if disc > lookedUp then disc else lookedUp
  }

  /** A file that already has a disc prefix is left alone: it opens with a
      digit and has a `-` among its first three characters. */
  predicate HasDiscPrefix(name: string)
    requires name != []
  {
    IsDigit(name[0]) && '-' in name[..if |name| < 3 then |name| else 3]
  }

  /** The new name of a file moved into a disc folder:
      `{disc}-{track:02d} {title}{suffix}` made safe as a whole. */
  function DiscFileName(disc: nat, track: nat, title: string, suffix: string): (r: string)
    ensures Tidy(r) && |r| <= 200
    ensures forall x :: x in r ==> !Fixer.FilenameInvalid(x)
  {
    MakeFilenameSafe(NatToString(disc) + "-" + ZFill(NatToString(track), 2) + " " + title + suffix)
  }
}
