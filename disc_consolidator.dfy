/** The multi-disc consolidator: folder names such as "Album [Disc 1]" or
    "Album CD2" are parsed into a base album name and a disc number, folders
    sharing a base form a set when there are at least two of them, and each
    set is merged into one folder whose files carry a disc prefix and a
    "disc/total" tag. The listing of the library (folder names with their
    MP3 file names) is a parameter, and so is the outcome of the file
    moves. */
module DiscConsolidator {
  import opened Wrappers
  import opened Text
  import Patterns
  import Sorting

  // ---------------------------------------------------- parse_folder_name

  /** One of the disc patterns `^(.+?)\s*<dash><open><kw>\s*(\d+)<close>$`:
      an optional `-` (with blanks after it), an optional `[`...`]` pair
      and the keyword, matched case-insensitively (`kw` is in lower case). */
  datatype DiscPattern = DiscPattern(dash: bool, bracket: bool, kw: string)

  const BracketDisc := DiscPattern(false, true, "disc")
  const BracketCd := DiscPattern(false, true, "cd")
  const SuffixDisc := DiscPattern(false, false, "disc")
  const SuffixCd := DiscPattern(false, false, "cd")
  const DashDisc := DiscPattern(true, false, "disc")

  /** The patterns in the order they are tried. */
  const DiscPatterns: seq<DiscPattern> := [BracketDisc, BracketCd, SuffixDisc, SuffixCd, DashDisc]

  /** Where the keyword must start in the text `u` that follows the base
      name: after the leading blanks, and after the dash or the bracket the
      pattern asks for. */
  function KeywordStart(u: string, p: DiscPattern): (b: Option<nat>)
    ensures b.Some? ==> b.value <= |u|
  {
    var a := |LeadingSpaces(u)|;
    if p.dash then
      if a < |u| && u[a] == '-' then Some(a + 1 + |LeadingSpaces(u[a + 1..])|) else None
    else if p.bracket then
      if a < |u| && u[a] == '[' then Some(a + 1) else None
    else Some(a)
  }

  /** Where the disc number starts in the text `w` that begins at the
      keyword, when `w` matches the keyword, blanks, digits and the closing
      bracket (if any) through to the end. */
  function NumberStart(w: string, kw: string, bracket: bool): (c: Option<nat>)
    ensures c.Some? ==> c.value < |w| && IsDigit(w[c.value])
  {
    if !Patterns.LiteralAt(w, 0, kw) then None
    else
      var c := |kw| + |LeadingSpaces(w[|kw|..])|;
      var d := |LeadingDigits(w[c..])|;
      if d > 0 && (if bracket then c + d + 1 == |w| && w[c + d] == ']' else c + d == |w|) then Some(c)
      else None
  }

  /** Where the disc number starts when the text `u` after the base name
      matches the rest of pattern `p` through to the end. */
  function DigitsStart(u: string, p: DiscPattern): (c: Option<nat>)
    ensures c.Some? ==> c.value < |u| && IsDigit(u[c.value])
  {
    var b := KeywordStart(u, p);
    if b.None? then None
    else
      var c := NumberStart(u[b.value..], p.kw, p.bracket);
      if c.None? then None else Some(b.value + c.value)
  }

  /** The pattern matches with the base name ending at `k`. */
  predicate TailAt(t: string, k: nat, p: DiscPattern) {
    k <= |t| && DigitsStart(t[k..], p).Some?
  }

  /** The lazy `(.+?)`: the shortest base, of at least one character, after
      which the rest of the pattern matches. */
  function ShortestBase(t: string, p: DiscPattern, k: nat): (r: Option<nat>)
    ensures r.Some? ==> k <= r.value <= |t| && TailAt(t, r.value, p) && forall j :: k <= j < r.value ==> !TailAt(t, j, p)
    ensures r.None? ==> forall j :: k <= j <= |t| ==> !TailAt(t, j, p)
  {
    var at := (s: string, j: nat) => TailAt(s, j, p);
    var q := Patterns.FirstWhere(t, at, k);
    assert forall j: nat :: at(t, j) == TailAt(t, j, p);
    q
  }


  /** `re.match(pattern, t, re.IGNORECASE)` and the stripped base and
      integer disc number it yields. The `.` of the base does not match a
      line break, so a base containing one fails the match. */
  function MatchPattern(t: string, p: DiscPattern): (r: Option<(string, nat)>)
    ensures r.Some? ==> '\n' !in r.value.0
    ensures r.Some? && r.value.0 != [] ==> !IsSpace(r.value.0[0]) && !IsSpace(r.value.0[|r.value.0| - 1])
  {
    var k := ShortestBase(t, p, 1);
    if k.None? || '\n' in t[..k.value] then None
    else
      var u := t[k.value..];
      var c := DigitsStart(u, p).value;
      Some((Strip(t[..k.value]), DigitsValue(LeadingDigits(u[c..]))))
  }

  /** The result of the first pattern of `ps` that matches. */
  function ParseWith(name: string, ps: seq<DiscPattern>): (r: Option<(string, nat)>)
    ensures r.None? <==> forall i :: 0 <= i < |ps| ==> MatchPattern(name, ps[i]).None?
    ensures r.Some? ==>
      exists i :: 0 <= i < |ps| && r == MatchPattern(name, ps[i]) && forall j :: 0 <= j < i ==> MatchPattern(name, ps[j]).None?
  {
    FirstSome(ps, p => MatchPattern(name, p))
  }

  /** `parse_folder_name(name)`. */
  function ParseFolderName(name: string): (r: Option<(string, nat)>)
    ensures r.None? <==> forall i :: 0 <= i < |DiscPatterns| ==> MatchPattern(name, DiscPatterns[i]).None?
  {
    ParseWith(name, DiscPatterns)
  }

  /** The name the first pattern describes: the album, a blank and the
      bracketed disc number. */
  function DiscFolderName(base: string, disc: nat): string {
    base + [' ', '['] + ['D', 'i', 's', 'c', ' '] + NatToString(disc) + [']']
  }

  lemma StripUnchanged(s: string)
    requires s != [] && !IsSpace(s[0]) && !IsSpace(s[|s| - 1])
    ensures Strip(s) == s
  {
  }

  /** The text after the base in a canonical name matches the first pattern. */
  lemma CanonicalTail(n: string)
    requires AllDigits(n) && n != []
    ensures DigitsStart([' ', '['] + ['D', 'i', 's', 'c', ' '] + n + [']'], BracketDisc) == Some(7)
  {
    var u := [' ', '['] + ['D', 'i', 's', 'c', ' '] + n + [']'];
    assert LeadingSpaces(u) == [' '] by {
      assert u[0] == ' ' && u[1..] == ['['] + ['D', 'i', 's', 'c', ' '] + n + [']'];
      assert LeadingSpaces(u[1..]) == [];
    }
    assert KeywordStart(u, BracketDisc) == Some(2);
    var w := ['D', 'i', 's', 'c', ' '] + n + [']'];
    assert u[2..] == w;
    CanonicalNumber(n);
  }

  lemma CanonicalNumber(n: string)
    requires AllDigits(n) && n != []
    ensures NumberStart(['D', 'i', 's', 'c', ' '] + n + [']'], "disc", true) == Some(5)
  {
    var w := ['D', 'i', 's', 'c', ' '] + n + [']'];
    assert w[0..4] == ['D', 'i', 's', 'c'];
    assert Lower(w[0..4]) == "disc";
    assert LeadingSpaces(w[4..]) == [' '] by {
      assert w[4..] == [' '] + n + [']'];
      assert w[4..][1..] == n + [']'];
      assert !IsSpace(n[0]);
    }
    assert w[5..] == n + [']'];
    LeadingDigitsOf(n, [']']);
  }

  /** The number in a canonical name reads back as the disc number. */
  lemma CanonicalValue(disc: nat)
    ensures DigitsValue(LeadingDigits(([' ', '['] + ['D', 'i', 's', 'c', ' '] + NatToString(disc) + [']'])[7..])) == disc
  {
    var n := NatToString(disc);
    assert ([' ', '['] + ['D', 'i', 's', 'c', ' '] + n + [']'])[7..] == n + [']'];
    LeadingDigitsOf(n, [']']);
    NatToStringValue(disc);
  }

  /** The shortest base is the one at `k` when the pattern matches there and nowhere before. */
  lemma ShortestAt(t: string, p: DiscPattern, k: nat)
    requires 1 <= k <= |t| && TailAt(t, k, p)
    requires forall j :: 1 <= j < k ==> !TailAt(t, j, p)
    ensures ShortestBase(t, p, 1) == Some(k)
  {
  }

  /** The match of a pattern whose shortest base ends at `k`. */
  lemma MatchAt(t: string, p: DiscPattern, k: nat, c: nat)
    requires ShortestBase(t, p, 1) == Some(k) && '\n' !in t[..k]
    requires DigitsStart(t[k..], p) == Some(c)
    ensures MatchPattern(t, p) == Some((Strip(t[..k]), DigitsValue(LeadingDigits(t[k + c..]))))
  {
    assert t[k..][c..] == t[k + c..];
  }

  /** A base without a bracket, a line break or blanks at its ends, named
      with a bracketed disc number, parses back to that base and number. */
  lemma ParseCanonical(base: string, disc: nat)
    requires base != [] && !IsSpace(base[0]) && !IsSpace(base[|base| - 1])
    requires '[' !in base && '\n' !in base
    ensures ParseFolderName(DiscFolderName(base, disc)) == Some((base, disc))
  {
    var n := NatToString(disc);
    var t := DiscFolderName(base, disc);
    var u := [' ', '['] + ['D', 'i', 's', 'c', ' '] + n + [']'];
    assert t == base + u;
    assert t[|base|..] == u;
    CanonicalTail(n);
    forall j | 1 <= j < |base| ensures !TailAt(t, j, BracketDisc) {
      NoEarlierBracket(base, u, j);
    }
    ShortestAt(t, BracketDisc, |base|);
    assert t[..|base|] == base;
    MatchAt(t, BracketDisc, |base|, 7);
    StripUnchanged(base);
    assert t[|base| + 7..] == u[7..];
    CanonicalValue(disc);
    FirstPatternDecides(t);
  }

  /** When the first pattern matches, its result is the parse. */
  lemma FirstPatternDecides(t: string)
    requires MatchPattern(t, BracketDisc).Some?
    ensures ParseFolderName(t) == MatchPattern(t, BracketDisc)
  {
    assert DiscPatterns[0] == BracketDisc;
  }

  /** Cutting the base short leaves a non-blank, non-bracket character of
      the base where the bracket would have to be. */
  lemma NoEarlierBracket(base: string, u: string, j: nat)
    requires 1 <= j < |base| && !IsSpace(base[|base| - 1]) && '[' !in base
    ensures !TailAt(base + u, j, BracketDisc)
  {
    var w := (base + u)[j..];
    var a := |LeadingSpaces(w)|;
    assert w[|base| - 1 - j] == base[|base| - 1];
    assert a <= |base| - 1 - j;
    assert w[a] == base[j + a];
  }

  /** The dash pattern never decides: on a name without line breaks, any
      name it matches is matched by the plain `Disc` pattern tried before
      it, which keeps the dash in the base. */
  lemma DashPatternShadowed(t: string)
    requires '\n' !in t
    requires MatchPattern(t, DashDisc).Some?
    ensures MatchPattern(t, SuffixDisc).Some?
  {
    var k := ShortestBase(t, DashDisc, 1).value;
    var u := t[k..];
    var a := |LeadingSpaces(u)|;
    assert t[k + a + 1..] == u[a + 1..];
    DashTail(u, a);
    assert TailAt(t, k + a + 1, SuffixDisc);
    var k2 := ShortestBase(t, SuffixDisc, 1);
    assert k2.Some?;
    assert '\n' !in t[..k2.value];
  }

  /** The text after a dash matches the plain pattern wherever the dash
      pattern matched. */
  lemma DashTail(u: string, a: nat)
    requires a == |LeadingSpaces(u)| && DigitsStart(u, DashDisc).Some?
    ensures DigitsStart(u[a + 1..], SuffixDisc).Some?
  {
    var b := DashNumber(u, a);
    var v := u[a + 1..];
    PlainKeyword(v, SuffixDisc);
    assert v[b - a - 1..] == u[b..];
    DigitsStartAfter(v, SuffixDisc, b - a - 1);
  }

  /** Where the dash pattern matches, the number pattern matches from the
      keyword `b` that follows the dash and its blanks. */
  lemma DashNumber(u: string, a: nat) returns (b: nat)
    requires a == |LeadingSpaces(u)| && DigitsStart(u, DashDisc).Some?
    ensures a < |u| && b == a + 1 + |LeadingSpaces(u[a + 1..])| && b <= |u|
    ensures NumberStart(u[b..], "disc", false).Some?
  {
    KeywordPlaced(u, DashDisc);
    b := DashKeywordAt(u, a);
    DigitsStartAfter(u, DashDisc, b);
  }

  /** Without dash or bracket the keyword follows the leading blanks. */
  lemma PlainKeyword(v: string, p: DiscPattern)
    requires !p.dash && !p.bracket
    ensures KeywordStart(v, p) == Some(|LeadingSpaces(v)|)
  {
  }

  /** A pattern that matches has found its keyword. */
  lemma KeywordPlaced(u: string, p: DiscPattern)
    requires DigitsStart(u, p).Some?
    ensures KeywordStart(u, p).Some?
  {
  }

  /** Where the dash pattern finds its keyword, the dash follows the blanks
      and the keyword follows the dash and its blanks. */
  lemma DashKeywordAt(u: string, a: nat) returns (b: nat)
    requires KeywordStart(u, DashDisc).Some? && a == |LeadingSpaces(u)|
    ensures a < |u| && u[a] == '-' && b == a + 1 + |LeadingSpaces(u[a + 1..])|
    ensures KeywordStart(u, DashDisc) == Some(b)
  {
    b := a + 1 + |LeadingSpaces(u[a + 1..])|;
  }

  /** Once the keyword's place is known, the pattern matches exactly when
      the text from there does. */
  lemma DigitsStartAfter(u: string, p: DiscPattern, b: nat)
    requires KeywordStart(u, p) == Some(b)
    ensures DigitsStart(u, p).Some? <==> NumberStart(u[b..], p.kw, p.bracket).Some?
  {
  }

  /** A name with no digit has no disc number. */
  lemma NoDigitNoDisc(name: string)
    requires forall i :: 0 <= i < |name| ==> !IsDigit(name[i])
    ensures ParseFolderName(name).None?
  {
  }

  // ---------------------------------------------------- detect_multi_disc

  /** A folder of the library and the names of its MP3 files, in the order
      the consolidation visits them. */
  datatype Dir = Dir(name: string, mp3s: seq<string>)

  datatype DiscInfo = DiscInfo(folder: string, baseName: string, discNumber: nat, trackCount: nat, mp3s: seq<string>)

  /** The disc information of a folder whose name parses. */
  function InfoOf(d: Dir): (r: Option<DiscInfo>)
    ensures r.Some? <==> ParseFolderName(d.name).Some?
    ensures r.Some? ==>
      ((r.value.baseName, r.value.discNumber) == ParseFolderName(d.name).value
       && r.value.folder == d.name && r.value.trackCount == |d.mp3s| && r.value.mp3s == d.mp3s)
  {
    var p := ParseFolderName(d.name);
    if p.None? then None else Some(DiscInfo(d.name, p.value.0, p.value.1, |d.mp3s|, d.mp3s))
  }

  /** The disc folders of a listing, in listing order. */
  function Infos(listing: seq<Dir>): seq<DiscInfo> {
    if listing == [] then []
    else
      var r := InfoOf(listing[|listing| - 1]);
      Infos(listing[..|listing| - 1]) + (if r.Some? then [r.value] else [])
  }

  /** The disc folders grouped by base name, each group in listing order. */
  function Groups(listing: seq<Dir>): (g: map<string, seq<DiscInfo>>)
    ensures forall b :: b in g ==> g[b] != []
  {
    if listing == [] then map[]
    else
      var g := Groups(listing[..|listing| - 1]);
      var r := InfoOf(listing[|listing| - 1]);
      if r.None? then g
      else
        var b := r.value.baseName;
        g[b := (if b in g then g[b] else []) + [r.value]]
  }

  /** Each group holds exactly the disc folders of its base name. */
  lemma {:induction false} GroupsMembers(listing: seq<Dir>, b: string, x: DiscInfo)
    ensures (b in Groups(listing) && x in Groups(listing)[b]) <==> (x in Infos(listing) && x.baseName == b)
  {
    if listing != [] {
      GroupsMembers(listing[..|listing| - 1], b, x);
    }
  }

  function DiscKey(d: DiscInfo): real { d.discNumber as real }

  /** `detect_multi_disc`: the groups of at least two folders, each sorted
      by disc number. */
  function MultiDiscSets(listing: seq<Dir>): (sets: map<string, seq<DiscInfo>>)
    ensures forall b :: b in sets <==> b in Groups(listing) && |Groups(listing)[b]| >= 2
    ensures forall b :: b in sets ==>
      (Sorting.SortedBy(sets[b], DiscKey) && multiset(sets[b]) == multiset(Groups(listing)[b]))
  {
    var g := Groups(listing);
    map b | b in g && |g[b]| >= 2 :: Sorting.SortBy(g[b], DiscKey)
  }

  /** Every set has at least two discs. */
  lemma SetsHaveTwoDiscs(listing: seq<Dir>, b: string)
    requires b in MultiDiscSets(listing)
    ensures |MultiDiscSets(listing)[b]| >= 2
  {
    var s := MultiDiscSets(listing)[b];
    assert |multiset(s)| == |multiset(Groups(listing)[b])|;
  }

  // ----------------------------------------------------------- consolidate

  /** `re.match(r'^\d+-', name)`. */
  predicate HasDiscPrefix(name: string) {
    var d := LeadingDigits(name);
    d != [] && |d| < |name| && name[|d|] == '-'
  }

  /** The file name in the merged folder: a `{disc}-` prefix unless the name
      already starts with digits and a dash. */
  function PrefixedName(disc: nat, name: string): (r: string)
    ensures HasDiscPrefix(r)
    ensures HasDiscPrefix(name) ==> r == name
    ensures !HasDiscPrefix(name) ==> EndsWith(r, name) && StartsWith(r, NatToString(disc))
  {
    if HasDiscPrefix(name) then name
    else
      var n := NatToString(disc);
      var r := n + ['-'] + name;
      assert r == n + (['-'] + name);
      LeadingDigitsOf(n, ['-'] + name);
      assert r[|n|..] == ['-'] + name;
      r
  }

  /** The `discnumber` tag written to every file: `{disc}/{total}`. */
  function DiscTag(disc: nat, total: nat): string {
    NatToString(disc) + ['/'] + NatToString(total)
  }

  /** The highest disc number of a set. */
  function MaxDisc(discs: seq<DiscInfo>): (m: nat)
    requires discs != []
    ensures forall i :: 0 <= i < |discs| ==> discs[i].discNumber <= m
    ensures exists i :: 0 <= i < |discs| && discs[i].discNumber == m
  {
    if |discs| == 1 then discs[0].discNumber
    else
      var m := MaxDisc(discs[..|discs| - 1]);
      var last := discs[|discs| - 1].discNumber;
      assert forall i :: 0 <= i < |discs| - 1 ==> discs[i] == discs[..|discs| - 1][i];
      if last > m then last else m
  }

  /** The treatment of one file: it goes from its disc folder to the merged
      folder under its prefixed name, and is tagged with the album name and
      `disc/total`. */
  datatype FileStep = FileStep(folder: string, name: string, newName: string, album: string, discTag: string)

  function DiscSteps(target: string, d: DiscInfo, total: nat): (r: seq<FileStep>)
    ensures |r| == |d.mp3s|
    ensures forall s :: s in r ==>
      (s.album == target && HasDiscPrefix(s.newName) && s.discTag == DiscTag(d.discNumber, total))
  {
    seq(|d.mp3s|, i requires 0 <= i < |d.mp3s| =>
      FileStep(d.folder, d.mp3s[i], PrefixedName(d.discNumber, d.mp3s[i]), target, DiscTag(d.discNumber, total)))
  }

  /** The number of MP3 files of a set. */
  function TrackTotal(discs: seq<DiscInfo>): nat {
    if discs == [] then 0 else TrackTotal(discs[..|discs| - 1]) + |discs[|discs| - 1].mp3s|
  }

  /** The steps of all discs, disc by disc. */
  function Steps(target: string, discs: seq<DiscInfo>, total: nat): (r: seq<FileStep>)
    ensures |r| == TrackTotal(discs)
    ensures forall s :: s in r ==> s.album == target && HasDiscPrefix(s.newName)
  {
    if discs == [] then []
    else Steps(target, discs[..|discs| - 1], total) + DiscSteps(target, discs[|discs| - 1], total)
  }

  /** What `consolidate` does: nothing for an empty set, a preview in a dry
      run, the file steps when the moves go through, and an exception when
      they do not. */
  datatype Outcome = Skipped | Previewed | Consolidated(target: string, totalDiscs: nat, steps: seq<FileStep>) | Failed

  /** `target_folder or album_name`. */
  function TargetName(albumName: string, targetFolder: Option<string>): (r: string)
    ensures targetFolder.Some? && targetFolder.value != [] ==> r == targetFolder.value
    ensures targetFolder.None? || targetFolder.value == [] ==> r == albumName
  {
    if targetFolder.Some? && targetFolder.value != [] then targetFolder.value else albumName
  }

  /** `consolidate(album_name, discs, target_folder, dry_run)`; `moveFails`
      says whether a file operation raises. The total in every disc tag is
      the highest disc number, not the number of disc folders. */
  function Consolidate(albumName: string, discs: seq<DiscInfo>, targetFolder: Option<string>, dryRun: bool, moveFails: bool)
    : (o: Outcome)
    ensures discs == [] <==> o == Skipped
    ensures discs != [] && dryRun ==> o == Previewed
    ensures o.Failed? ==> !dryRun && moveFails
    ensures o.Consolidated? ==>
      o.target == TargetName(albumName, targetFolder)
      && (forall i :: 0 <= i < |discs| ==> discs[i].discNumber <= o.totalDiscs)
      && (exists i :: 0 <= i < |discs| && discs[i].discNumber == o.totalDiscs)
      && |o.steps| == TrackTotal(discs)
      && forall s :: s in o.steps ==> s.album == o.target && HasDiscPrefix(s.newName)
  {
    if discs == [] then Skipped
    else if dryRun then Previewed
    else if moveFails then Failed
    else
      var target := TargetName(albumName, targetFolder);
      var total := MaxDisc(discs);
      Consolidated(target, total, Steps(target, discs, total))
  }

  /** The value `consolidate` returns; `None` when it raises. */
  function Returned(o: Outcome): (r: Option<bool>)
    ensures r == Some(false) <==> o == Skipped
    ensures r.None? <==> o == Failed
  {
    match o
    case Skipped => Some(false)
    case Failed => None
    case _ => Some(true)
  }

  /** An illustration of the general `Consolidate` contract (the total is
      the highest disc number): discs numbered 1 and 3, with disc 2
      missing, are tagged as a set of three. */
  lemma TotalIsHighestNumber(a: DiscInfo, b: DiscInfo)
    requires a.discNumber == 1 && b.discNumber == 3
    ensures Consolidate("x", [a, b], None, false, false).totalDiscs == 3
  {
  }

  // --------------------------------------------------------- consolidate_all

  datatype AllResults = AllResults(found: nat, consolidated: nat, skipped: nat, errors: nat)

  class DiscConsolidator {
    var discSets: map<string, seq<DiscInfo>>

    constructor ()
      ensures discSets == map[]
    {
      discSets := map[];
    }

    /** `detect_multi_disc(path)`. */
    method DetectMultiDisc(listing: seq<Dir>) returns (sets: map<string, seq<DiscInfo>>)
      modifies this
      ensures discSets == MultiDiscSets(listing) && sets == discSets
    {
      var groups: map<string, seq<DiscInfo>> := map[];
      var i := 0;
      while i < |listing|
        invariant 0 <= i <= |listing|
        invariant groups == Groups(listing[..i])
      {
        assert listing[..i + 1][..i] == listing[..i];
        var info := InfoOf(listing[i]);
        if info.Some? {
          var b := info.value.baseName;
          var cur := if b in groups then groups[b] else [];
          groups := groups[b := cur + [info.value]];
        }
        i := i + 1;
      }
      assert listing[..i] == listing;
      discSets := map b | b in groups && |groups[b]| >= 2 :: Sorting.SortBy(groups[b], DiscKey);
      sets := discSets;
    }

    /** `consolidate_all(path, dry_run)`: every set found is consolidated
        or ends in an error, never skipped, since every set has two discs
        or more; the errors are the sets whose file moves raise, and a dry
        run consolidates them all. */
    method ConsolidateAll(listing: seq<Dir>, dryRun: bool, moveFails: string -> bool) returns (r: AllResults)
      modifies this
      ensures discSets == MultiDiscSets(listing)
      ensures r.found == |discSets| && r.skipped == 0
      ensures r.consolidated + r.skipped + r.errors == r.found
      ensures r.errors == if dryRun then 0 else |set b | b in discSets && moveFails(b)|
    {
      var sets := DetectMultiDisc(listing);
      forall b | b in sets ensures sets[b] != [] {
        SetsHaveTwoDiscs(listing, b);
      }
      r := ConsolidatePass(sets, dryRun, moveFails);
    }
  }

  /** What consolidating a non-empty set returns. */
  lemma SetReturns(b: string, discs: seq<DiscInfo>, dryRun: bool, fails: bool)
    requires discs != []
    ensures Returned(Consolidate(b, discs, None, dryRun, fails)) == if !dryRun && fails then None else Some(true)
  {
  }

  /** One set of the loop of `consolidate_all`: what `consolidate`
      returns for it. */
  method ConsolidateOne(b: string, discs: seq<DiscInfo>, dryRun: bool, fails: bool) returns (v: Option<bool>)
    requires discs != []
    ensures v == Returned(Consolidate(b, discs, None, dryRun, fails))
    ensures v == if !dryRun && fails then None else Some(true)
  {
    SetReturns(b, discs, dryRun, fails);
    v := Returned(Consolidate(b, discs, None, dryRun, fails));
  }

  /** One set of the loop: counted as consolidated, or as an error when
      `consolidate` raises. */
  method CountSet(r0: AllResults, b: string, discs: seq<DiscInfo>, dryRun: bool, fails: bool) returns (r: AllResults)
    requires discs != []
    ensures r.found == r0.found && r.skipped == r0.skipped
    ensures if !dryRun && fails then r == r0.(errors := r0.errors + 1)
            else r == r0.(consolidated := r0.consolidated + 1)
  {
    var v := ConsolidateOne(b, discs, dryRun, fails);
    r := r0;
    if v.None? {
      r := r.(errors := r.errors + 1);
    } else if v.value {
      r := r.(consolidated := r.consolidated + 1);
    } else {
      assert false;
    }
  }

  /** The loop of `consolidate_all` over the sets found. */
  method ConsolidatePass(sets: map<string, seq<DiscInfo>>, dryRun: bool, moveFails: string -> bool) returns (r: AllResults)
    requires forall b :: b in sets ==> sets[b] != []
    ensures r.found == |sets| && r.skipped == 0
    ensures r.consolidated + r.skipped + r.errors == r.found
    ensures r.errors == if dryRun then 0 else |set b | b in sets && moveFails(b)|
  {
    r := AllResults(|sets|, 0, 0, 0);
    var rest := sets.Keys;
    ghost var failed: set<string> := {};
    while rest != {}
      invariant rest <= sets.Keys
      invariant r.found == |sets| && r.skipped == 0
      invariant r.consolidated + r.errors + |rest| == r.found
      invariant forall b :: b in failed <==> b in sets && !dryRun && moveFails(b) && b !in rest
      invariant r.errors == |failed|
      decreases |rest|
    {
      var b :| b in rest;
      r := CountSet(r, b, sets[b], dryRun, moveFails(b));
      assert b !in failed;
      assert |rest - {b}| == |rest| - 1;
      rest := rest - {b};
      if !dryRun && moveFails(b) {
        assert |failed + {b}| == |failed| + 1;
        failed := failed + {b};
      }
    }
    if dryRun {
      assert failed == {};
    } else {
      assert failed == set b | b in sets && moveFails(b);
    }
  }
}
