/** The multi-disc consolidation utility: disc folders ("Album Disc 1",
    "Album CD2", "Album [Disc 1]", "Album Vol. 1", "Album 2") are grouped by
    base name into complete sets and orphaned discs, and a complete set is
    merged by copying every audio file of every disc into one new folder,
    renaming a file whose name is taken and tagging each copy with its disc
    position. The directory listings are parameters. */
module ConsolidateMultidisc {
  import opened Wrappers
  import opened Text
  import Patterns
  import Sorting

  // ------------------------------------------------------- the disc patterns

  /** `(.+?)\s+<open><kw><blanks>(\d+)<close>$`: at least one blank after
      the base, an optional `[`...`]` pair, the keyword (in lower case,
      matched case-insensitively), and after it at least one blank when
      `blankAfter` holds (otherwise any number). */
  datatype DiscPattern = DiscPattern(kw: string, blankAfter: bool, bracket: bool)

  const DiscWord := DiscPattern("disc", true, false)
  const DiskWord := DiscPattern("disk", true, false)
  const CdWord := DiscPattern("cd", false, false)
  const BracketDisc := DiscPattern("disc", true, true)
  const VolWord := DiscPattern("vol.", true, false)
  const Numbered := DiscPattern("", false, false)

  /** The patterns in the order they are tried. */
  const DiscPatterns: seq<DiscPattern> := [DiscWord, DiskWord, CdWord, BracketDisc, VolWord, Numbered]

  /** Where the disc number starts when the text `u` after the base matches
      the rest of pattern `p` through to the end. */
  function DigitsStart(u: string, p: DiscPattern): (c: Option<nat>)
    ensures c.Some? ==> c.value < |u| && IsDigit(u[c.value])
  {
    var a := |LeadingSpaces(u)|;
    if a == 0 then None
    else if p.bracket && !(a < |u| && u[a] == '[') then None
    else
      var b := if p.bracket then a + 1 else a;
      if !Patterns.LiteralAt(u, b, p.kw) then None
      else
        var s := |LeadingSpaces(u[b + |p.kw|..])|;
        var c := b + |p.kw| + s;
        var d := |LeadingDigits(u[c..])|;
        if (p.blankAfter && s == 0) || d == 0 then None
        else if p.bracket then (if c + d + 1 == |u| && u[c + d] == ']' then Some(c) else None)
        else if c + d == |u| then Some(c)
        else None
  }

  predicate TailAt(t: string, k: nat, p: DiscPattern) {
    k <= |t| && DigitsStart(t[k..], p).Some?
  }

  /** The lazy `(.+?)`: the shortest non-empty base after which the rest matches. */
  function ShortestBase(t: string, p: DiscPattern, k: nat): (r: Option<nat>)
    ensures r.Some? ==> k <= r.value <= |t| && TailAt(t, r.value, p) && forall j :: k <= j < r.value ==> !TailAt(t, j, p)
    ensures r.None? ==> forall j :: k <= j <= |t| ==> !TailAt(t, j, p)
  {
    var at := (s: string, j: nat) => TailAt(s, j, p);
    var q := Patterns.FirstWhere(t, at, k);
    assert forall j: nat :: at(t, j) == TailAt(t, j, p);
    q
  }


  /** `re.match(pattern, folder, re.IGNORECASE)`, the stripped base and the
      integer disc number; a base containing a line break does not match. */
  function MatchPattern(t: string, p: DiscPattern): (r: Option<(string, nat)>)
    ensures r.Some? ==> '\n' !in r.value.0
    ensures r.Some? && r.value.0 != [] ==> !IsSpace(r.value.0[0]) && !IsSpace(r.value.0[|r.value.0| - 1])
  {
    var k := ShortestBase(t, p, 1);
    if k.None? || '\n' in t[..k.value] then None
    else
      var u := t[k.value..];
      var c := DigitsStart(u, p).value;
      Some((Strip(t[..k.value]), DigitsValue(LeadingDigits(u[c..]))))
  }

  /** The first pattern of `ps` that matches decides. */
  function ParseWith(name: string, ps: seq<DiscPattern>): (r: Option<(string, nat)>)
    ensures r.None? <==> forall i :: 0 <= i < |ps| ==> MatchPattern(name, ps[i]).None?
    ensures r.Some? ==>
      exists i :: 0 <= i < |ps| && r == MatchPattern(name, ps[i]) && forall j :: 0 <= j < i ==> MatchPattern(name, ps[j]).None?
  {
    FirstSome(ps, p => MatchPattern(name, p))
  }

  /** The base name and disc number of a folder, from the first matching pattern. */
  function ParseDiscFolder(name: string): (r: Option<(string, nat)>)
    ensures r.None? <==> forall i :: 0 <= i < |DiscPatterns| ==> MatchPattern(name, DiscPatterns[i]).None?
  {
    ParseWith(name, DiscPatterns)
  }

  /** A name without a digit is no disc folder. */
  lemma NoDigitNoDisc(name: string)
    requires forall i :: 0 <= i < |name| ==> !IsDigit(name[i])
    ensures ParseDiscFolder(name).None?
  {
  }

  /** The text ` <digits>` matches the last pattern. */
  lemma NumberedTail(n: string)
    requires n != [] && AllDigits(n)
    ensures DigitsStart([' '] + n, Numbered) == Some(1)
  {
    var u := [' '] + n;
    assert u[1..] == n;
    assert !IsSpace(n[0]);
    assert LeadingSpaces(u) == [' '];
    assert u[1..1] == [];
    assert LeadingSpaces(u[1..]) == [];
    LeadingDigitsOf(n, []);
    assert n + [] == n;
  }

  /** Every name ending in a blank and a number is a disc folder: the last
      pattern takes any numbered name the more specific ones leave. */
  lemma NumberedNameParses(base: string, n: string)
    requires base != [] && '\n' !in base && n != [] && AllDigits(n)
    ensures ParseDiscFolder(base + [' '] + n).Some?
  {
    var t := base + [' '] + n;
    assert t[|base|..] == [' '] + n;
    NumberedTail(n);
    assert TailAt(t, |base|, Numbered);
    var k := ShortestBase(t, Numbered, 1);
    assert k.Some? && k.value <= |base|;
    assert t[..k.value] == base[..k.value];
    assert MatchPattern(t, Numbered).Some?;
    assert DiscPatterns[5] == Numbered;
  }

  // -------------------------------------------------- identify_multidisc_sets

  /** A sub-folder of the artist folder and its file names (`None` when
      listing it fails). */
  datatype Dir = Dir(name: string, files: Option<seq<string>>)

  /** A disc folder as recorded: its name, disc number and audio file count. */
  datatype DiscEntry = DiscEntry(folderName: string, discNum: nat, tracks: nat)

  /** An audio file: `.mp3`, `.m4a` or `.flac`, in any letter case. */
  predicate IsAudio(f: string) {
    var l := Lower(f);
    EndsWith(l, ".mp3") || EndsWith(l, ".m4a") || EndsWith(l, ".flac")
  }

  /** The audio files of a listing, in listing order. */
  function AudioFiles(files: seq<string>): (r: seq<string>)
    ensures |r| <= |files|
    ensures forall f :: f in r <==> f in files && IsAudio(f)
  {
    if files == [] then []
    else AudioFiles(files[..|files| - 1]) + (if IsAudio(files[|files| - 1]) then [files[|files| - 1]] else [])
  }

  /** The number of audio files, 0 when the folder cannot be listed. */
  function TrackCount(d: Dir): nat {
    if d.files.None? then 0 else |AudioFiles(d.files.value)|
  }

  function EntryOf(d: Dir): (r: Option<(string, DiscEntry)>)
    ensures r.Some? <==> ParseDiscFolder(d.name).Some?
  {
    var p := ParseDiscFolder(d.name);
    if p.None? then None else Some((p.value.0, DiscEntry(d.name, p.value.1, TrackCount(d))))
  }

  /** `album_groups`: the disc folders by base name, each in listing order. */
  function Groups(listing: seq<Dir>): (g: map<string, seq<DiscEntry>>)
    ensures forall b :: b in g ==> g[b] != []
  {
    if listing == [] then map[]
    else
      var g := Groups(listing[..|listing| - 1]);
      var r := EntryOf(listing[|listing| - 1]);
      if r.None? then g
      else g[r.value.0 := (if r.value.0 in g then g[r.value.0] else []) + [r.value.1]]
  }

  /** The disc folders of a listing with their base names, in listing order. */
  function Entries(listing: seq<Dir>): seq<(string, DiscEntry)> {
    if listing == [] then []
    else
      var r := EntryOf(listing[|listing| - 1]);
      Entries(listing[..|listing| - 1]) + (if r.Some? then [r.value] else [])
  }

  /** Every disc folder of the listing is in the group of its base name,
      and nothing else is. */
  lemma {:induction false} GroupsMembers(listing: seq<Dir>, b: string, e: DiscEntry)
    ensures (b in Groups(listing) && e in Groups(listing)[b]) <==> (b, e) in Entries(listing)
  {
    if listing != [] {
      var init := listing[..|listing| - 1];
      GroupsMembers(init, b, e);
      GroupStep(Groups(init), Entries(init), EntryOf(listing[|listing| - 1]), b, e);
    }
  }

  /** Adding one more folder to the groups and to the entries keeps them
      in step. */
  lemma GroupStep(g: map<string, seq<DiscEntry>>, es: seq<(string, DiscEntry)>, r: Option<(string, DiscEntry)>,
                  b: string, e: DiscEntry)
    requires (b in g && e in g[b]) <==> (b, e) in es
    ensures var g' := if r.None? then g else g[r.value.0 := (if r.value.0 in g then g[r.value.0] else []) + [r.value.1]];
            (b in g' && e in g'[b]) <==> (b, e) in es + (if r.Some? then [r.value] else [])
  {
  }

  function DiscNumKey(e: DiscEntry): real { e.discNum as real }

  /** The two halves of the analysis. */
  datatype Analysis = Analysis(completeSets: map<string, seq<DiscEntry>>, orphanedDiscs: map<string, DiscEntry>)

  /** The groups of more than one disc, each sorted by disc number. */
  function CompleteSets(g: map<string, seq<DiscEntry>>): (c: map<string, seq<DiscEntry>>)
    ensures forall b :: b in c <==> b in g && |g[b]| > 1
    ensures forall b :: b in c ==>
      (|c[b]| > 1 && Sorting.SortedBy(c[b], DiscNumKey) && multiset(c[b]) == multiset(g[b]))
  {
    var c := map b | b in g && |g[b]| > 1 :: Sorting.SortBy(g[b], DiscNumKey);
    forall b | b in c ensures |c[b]| > 1 {
      Sorting.SortByLength(g[b], DiscNumKey);
    }
    c
  }

  /** The single disc of each group of one. */
  function OrphanedDiscs(g: map<string, seq<DiscEntry>>): (o: map<string, DiscEntry>)
    ensures forall b :: b in o <==> b in g && |g[b]| == 1
    ensures forall b :: b in o ==> g[b] == [o[b]]
  {
    map b | b in g && |g[b]| == 1 :: g[b][0]
  }

  /** `identify_multidisc_sets`: bases with more than one disc folder are
      complete sets, sorted by disc number; bases with exactly one are
      orphaned discs; no base is both, and every base is one of them. */
  function Identify(listing: seq<Dir>): (a: Analysis)
    ensures a.completeSets == CompleteSets(Groups(listing)) && a.orphanedDiscs == OrphanedDiscs(Groups(listing))
    ensures a.completeSets.Keys !! a.orphanedDiscs.Keys
    ensures a.completeSets.Keys + a.orphanedDiscs.Keys == Groups(listing).Keys
  {
    var g := Groups(listing);
    var a := Analysis(CompleteSets(g), OrphanedDiscs(g));
    assert a.completeSets.Keys + a.orphanedDiscs.Keys == g.Keys by {
      forall b | b in g ensures b in a.completeSets || b in a.orphanedDiscs {
        assert g[b] != [];
      }
    }
    a
  }

  // ------------------------------------------------------- consolidate_discs

  /** The name a copy takes when its file name is already in the target. */
  function CollisionName(disc: nat, filename: string): (r: string)
    ensures EndsWith(r, filename) && |r| > |filename|
  {
    ['D', 'i', 's', 'c'] + NatToString(disc) + ['_'] + filename
  }

  /** `set_disc_metadata`: `disc/total` for MP3 and M4A files, nothing for others. */
  function DiscTag(filename: string, disc: nat, total: nat): (r: Option<string>)
    ensures r.Some? <==> EndsWith(Lower(filename), ".mp3") || EndsWith(Lower(filename), ".m4a")
  {
    var l := Lower(filename);
    if EndsWith(l, ".mp3") || EndsWith(l, ".m4a") then Some(NatToString(disc) + ['/'] + NatToString(total)) else None
  }

  /** One copied file: where it came from, where it went and its disc tag. */
  datatype Copy = Copy(source: string, filename: string, target: string, disc: nat, tag: Option<string>)

  /** The file names in the new folder and the manifest of the copies so far. */
  datatype CopyState = CopyState(inTarget: set<string>, manifest: seq<Copy>)

  /** The copy of one file: under its own name, or under the collision name
      when a copy of that name is already in the target folder (which
      `copy2` then overwrites if that name is taken too). */
  function CopyStep(s: CopyState, folder: string, disc: nat, total: nat, filename: string): (r: CopyState)
    ensures |r.manifest| == |s.manifest| + 1
    ensures r.manifest[|s.manifest|].target == if filename in s.inTarget then CollisionName(disc, filename) else filename
    ensures r.manifest[..|s.manifest|] == s.manifest
  {
    var t := if filename in s.inTarget then CollisionName(disc, filename) else filename;
    CopyState(s.inTarget + {t}, s.manifest + [Copy(folder, filename, t, disc, DiscTag(filename, disc, total))])
  }

  /** The copies of one disc's audio files, in listing order. */
  function CopyFiles(s: CopyState, folder: string, disc: nat, total: nat, files: seq<string>): (r: CopyState)
    ensures |r.manifest| == |s.manifest| + |files|
  {
    if files == [] then s
    else CopyStep(CopyFiles(s, folder, disc, total, files[..|files| - 1]), folder, disc, total, files[|files| - 1])
  }

  /** The copies of all discs; `None` when listing a disc folder or copying
      from it raises (`listNow` gives the folder's files at copy time). */
  function CopyDiscs(discs: seq<DiscEntry>, total: nat, listNow: string -> Option<seq<string>>): (r: Option<CopyState>)
  {
    if discs == [] then Some(CopyState({}, []))
    else
      var r := CopyDiscs(discs[..|discs| - 1], total, listNow);
      var d := discs[|discs| - 1];
      var files := listNow(d.folderName);
      if r.None? || files.None? then None
      else Some(CopyFiles(r.value, d.folderName, d.discNum, total, AudioFiles(files.value)))
  }

  /** The target names are the names of the copies in the manifest. */
  function Targets(m: seq<Copy>): set<string> {
    set i | 0 <= i < |m| :: m[i].target
  }

  lemma CopyFilesTargets(s: CopyState, folder: string, disc: nat, total: nat, files: seq<string>)
    requires s.inTarget == Targets(s.manifest)
    ensures var r := CopyFiles(s, folder, disc, total, files); r.inTarget == Targets(r.manifest)
    decreases |files|
  {
    if files != [] {
      var init := CopyFiles(s, folder, disc, total, files[..|files| - 1]);
      CopyFilesTargets(s, folder, disc, total, files[..|files| - 1]);
      var r := CopyStep(init, folder, disc, total, files[|files| - 1]);
      assert r.manifest == init.manifest + [r.manifest[|init.manifest|]];
      assert Targets(r.manifest) == Targets(init.manifest) + {r.manifest[|init.manifest|].target};
    }
  }

  lemma {:induction false} CopyDiscsTargets(discs: seq<DiscEntry>, total: nat, listNow: string -> Option<seq<string>>)
    ensures var r := CopyDiscs(discs, total, listNow); r.Some? ==> r.value.inTarget == Targets(r.value.manifest)
  {
    if discs == [] {
      assert Targets([]) == {};
    } else {
      CopyDiscsTargets(discs[..|discs| - 1], total, listNow);
      var r := CopyDiscs(discs[..|discs| - 1], total, listNow);
      if r.Some? && listNow(discs[|discs| - 1].folderName).Some? {
        var d := discs[|discs| - 1];
        CopyFilesTargets(r.value, d.folderName, d.discNum, total, AudioFiles(listNow(d.folderName).value));
      }
    }
  }

  /** Fewer target names than copies means two copies share a target. */
  lemma {:induction false} TargetCount(m: seq<Copy>)
    ensures |Targets(m)| <= |m|
    ensures |Targets(m)| == |m| ==> forall i, j :: 0 <= i < j < |m| ==> m[i].target != m[j].target
  {
    if m != [] {
      var init := m[..|m| - 1];
      TargetCount(init);
      assert Targets(m) == Targets(init) + {m[|m| - 1].target} by {
        assert forall i :: 0 <= i < |init| ==> init[i] == m[i];
      }
      if |Targets(m)| == |m| {
        assert m[|m| - 1].target !in Targets(init);
        forall i, j | 0 <= i < j < |m| ensures m[i].target != m[j].target {
          if j == |m| - 1 {
            assert init[i].target in Targets(init);
          } else {
            assert init[i] == m[i] && init[j] == m[j];
          }
        }
      }
    }
  }

  /** The total of the track counts recorded at scan time. */
  function SumTracks(discs: seq<DiscEntry>): nat {
    if discs == [] then 0 else SumTracks(discs[..|discs| - 1]) + discs[|discs| - 1].tracks
  }

  /** What `consolidate_discs` returns as written: a dry run succeeds
      without copying; an existing target folder, a failed `makedirs` or a
      failing disc folder fails; otherwise the call succeeds exactly when
      the number of copy operations equals the scanned track total. */
  function ConsolidateAsWritten(baseName: string, discs: seq<DiscEntry>, existing: set<string>, dryRun: bool,
                                mkdirFails: bool, listNow: string -> Option<seq<string>>): (ok: bool)
    ensures dryRun ==> ok
    ensures !dryRun && (baseName in existing || mkdirFails) ==> !ok
  {
    if dryRun then true
    else if baseName in existing || mkdirFails then false
    else
      var r := CopyDiscs(discs, |discs|, listNow);
      r.Some? && |r.value.manifest| == SumTracks(discs)
  }

  /** As written, a lost track goes unnoticed: three discs that share a disc
      number and a file name give three copies onto two names, the third
      overwriting the second, and the call still succeeds. */
  lemma OverwriteUndetected(baseName: string, existing: set<string>, a: DiscEntry, b: DiscEntry, c: DiscEntry,
                            f: string, listNow: string -> Option<seq<string>>)
    requires baseName !in existing && IsAudio(f)
    requires a.discNum == b.discNum == c.discNum && a.tracks == b.tracks == c.tracks == 1
    requires listNow(a.folderName) == listNow(b.folderName) == listNow(c.folderName) == Some([f])
    ensures ConsolidateAsWritten(baseName, [a, b, c], existing, false, false, listNow)
    ensures var r := CopyDiscs([a, b, c], 3, listNow).value; |r.inTarget| < |r.manifest|
  {
    ThreeCopies(a, b, c, f, listNow);
    SumThree(a, b, c);
    var cn := CollisionName(a.discNum, f);
    assert f != cn;
    assert |{f, cn}| == 2;
  }

  /** The three copies of the counterexample land on two names. */
  lemma ThreeCopies(a: DiscEntry, b: DiscEntry, c: DiscEntry, f: string, listNow: string -> Option<seq<string>>)
    requires IsAudio(f) && a.discNum == b.discNum == c.discNum
    requires listNow(a.folderName) == listNow(b.folderName) == listNow(c.folderName) == Some([f])
    ensures var r := CopyDiscs([a, b, c], 3, listNow);
      r.Some? && |r.value.manifest| == 3 && r.value.inTarget == {f, CollisionName(a.discNum, f)}
  {
    TwoCopies(a, b, f, listNow);
    var s2 := CopyDiscs([a, b], 3, listNow).value;
    OneFileDisc([a, b], c, 3, listNow, s2, f);
    CopyStepTargets(s2, c.folderName, c.discNum, 3, f);
    assert [a, b] + [c] == [a, b, c];
  }

  /** The first two copies of the counterexample: the second is renamed. */
  lemma TwoCopies(a: DiscEntry, b: DiscEntry, f: string, listNow: string -> Option<seq<string>>)
    requires IsAudio(f) && a.discNum == b.discNum
    requires listNow(a.folderName) == listNow(b.folderName) == Some([f])
    ensures var r := CopyDiscs([a, b], 3, listNow);
      r.Some? && |r.value.manifest| == 2 && r.value.inTarget == {f, CollisionName(a.discNum, f)}
  {
    assert [a] + [b] == [a, b];
    OneCopy(a, f, listNow);
    var s1 := CopyDiscs([a], 3, listNow).value;
    assert f in s1.inTarget;
    OneFileDisc([a], b, 3, listNow, s1, f);
    var s2 := CopyStep(s1, b.folderName, b.discNum, 3, f);
    CopyStepTargets(s1, b.folderName, b.discNum, 3, f);
    assert s2.inTarget == {f, CollisionName(a.discNum, f)};
  }

  /** The first copy of the counterexample keeps its name. */
  lemma OneCopy(a: DiscEntry, f: string, listNow: string -> Option<seq<string>>)
    requires IsAudio(f) && listNow(a.folderName) == Some([f])
    ensures var r := CopyDiscs([a], 3, listNow);
      r.Some? && |r.value.manifest| == 1 && r.value.inTarget == {f}
  {
    var s0 := CopyState({}, []);
    assert CopyDiscs([], 3, listNow) == Some(s0);
    CopyStepTargets(s0, a.folderName, a.discNum, 3, f);
    OneFileDisc([], a, 3, listNow, s0, f);
    assert [] + [a] == [a];
  }

  /** A copy step adds its target to the names in the new folder. */
  lemma CopyStepTargets(s: CopyState, folder: string, disc: nat, total: nat, filename: string)
    ensures CopyStep(s, folder, disc, total, filename).inTarget
         == s.inTarget + {if filename in s.inTarget then CollisionName(disc, filename) else filename}
  {
  }

  lemma SumThree(a: DiscEntry, b: DiscEntry, c: DiscEntry)
    ensures SumTracks([a, b, c]) == a.tracks + b.tracks + c.tracks
  {
    assert SumTracks([a]) == a.tracks by { assert [a][..0] == []; }
    assert [a, b][..1] == [a];
    assert [a, b, c][..2] == [a, b];
  }

  /** A disc holding one audio file adds one copy step. */
  lemma OneFileDisc(discs: seq<DiscEntry>, d: DiscEntry, total: nat, listNow: string -> Option<seq<string>>, s: CopyState, f: string)
    requires CopyDiscs(discs, total, listNow) == Some(s)
    requires listNow(d.folderName) == Some([f]) && IsAudio(f)
    ensures CopyDiscs(discs + [d], total, listNow) == Some(CopyStep(s, d.folderName, d.discNum, total, f))
  {
    assert (discs + [d])[..|discs|] == discs;
    assert [f][..0] == [];
    assert AudioFiles([f]) == [f];
    assert CopyFiles(s, d.folderName, d.discNum, total, [f]) == CopyStep(s, d.folderName, d.discNum, total, f);
  }

  /** The call as intended: on top of the copy count, the new folder must
      hold as many files as were copied. */
  function Consolidate(baseName: string, discs: seq<DiscEntry>, existing: set<string>, dryRun: bool,
                       mkdirFails: bool, listNow: string -> Option<seq<string>>): (ok: bool)
    ensures dryRun ==> ok
    ensures !dryRun && (baseName in existing || mkdirFails) ==> !ok
    ensures ok && !dryRun ==>
      var r := CopyDiscs(discs, |discs|, listNow);
      r.Some? && |r.value.manifest| == SumTracks(discs)
      && forall i, j :: 0 <= i < j < |r.value.manifest| ==> r.value.manifest[i].target != r.value.manifest[j].target
  {
    if dryRun then true
    else if baseName in existing || mkdirFails then false
    else
      var r := CopyDiscs(discs, |discs|, listNow);
      CopyDiscsTargets(discs, |discs|, listNow);
      if r.None? then false
      else
        TargetCount(r.value.manifest);
        |r.value.manifest| == SumTracks(discs) && |r.value.inTarget| == |r.value.manifest|
  }

  /** Every copy of a set carries the disc count of the set as its total. */
  lemma {:induction false} TagsCarryDiscCount(discs: seq<DiscEntry>, listNow: string -> Option<seq<string>>, i: nat)
    requires CopyDiscs(discs, |discs|, listNow).Some?
    requires i < |CopyDiscs(discs, |discs|, listNow).value.manifest|
    ensures var m := CopyDiscs(discs, |discs|, listNow).value.manifest[i];
      m.tag.Some? ==> m.tag.value == NatToString(m.disc) + ['/'] + NatToString(|discs|)
  {
    CopyDiscsTotal(discs, |discs|, listNow, i);
  }

  lemma {:induction false} CopyDiscsTotal(discs: seq<DiscEntry>, total: nat, listNow: string -> Option<seq<string>>, i: nat)
    requires CopyDiscs(discs, total, listNow).Some?
    requires i < |CopyDiscs(discs, total, listNow).value.manifest|
    ensures var m := CopyDiscs(discs, total, listNow).value.manifest[i];
      m.tag == DiscTag(m.filename, m.disc, total)
  {
    if discs != [] {
      var r := CopyDiscs(discs[..|discs| - 1], total, listNow).value;
      var d := discs[|discs| - 1];
      var files := AudioFiles(listNow(d.folderName).value);
      if i < |r.manifest| {
        CopyDiscsTotal(discs[..|discs| - 1], total, listNow, i);
        CopyFilesKeeps(r, d.folderName, d.discNum, total, files, i);
      } else {
        CopyFilesTags(r, d.folderName, d.discNum, total, files, i);
      }
    }
  }

  lemma {:induction false} CopyFilesKeeps(s: CopyState, folder: string, disc: nat, total: nat, files: seq<string>, i: nat)
    requires i < |s.manifest|
    ensures CopyFiles(s, folder, disc, total, files).manifest[i] == s.manifest[i]
  {
    if files != [] {
      CopyFilesKeeps(s, folder, disc, total, files[..|files| - 1], i);
    }
  }

  lemma {:induction false} CopyFilesTags(s: CopyState, folder: string, disc: nat, total: nat, files: seq<string>, i: nat)
    requires i < |CopyFiles(s, folder, disc, total, files).manifest|
    requires forall k :: 0 <= k < |s.manifest| ==>
      (s.manifest[k].tag == DiscTag(s.manifest[k].filename, s.manifest[k].disc, total) || k < i)
    ensures var m := CopyFiles(s, folder, disc, total, files).manifest[i]; i >= |s.manifest| ==> m.tag == DiscTag(m.filename, m.disc, total)
  {
    if files != [] {
      var init := CopyFiles(s, folder, disc, total, files[..|files| - 1]);
      if i < |init.manifest| {
        CopyFilesTags(s, folder, disc, total, files[..|files| - 1], i);
      }
    }
  }

  // ------------------------------------------------------------ cover art

  /** The cover file names the consolidation copies, compared in lower case. */
  const CoverNames: set<string> := {"folder.jpg", "cover.jpg", "album.jpg", "front.jpg"}

  predicate IsCover(name: string) { Lower(name) in CoverNames }

  /** The cover files of a listing, in listing order. */
  function CoverFiles(files: seq<string>): (r: seq<string>)
    ensures forall i :: 0 <= i < |r| ==> IsCover(r[i])
    ensures forall f :: f in r <==> f in files && IsCover(f)
  {
    if files == [] then []
    else
      var last := files[|files| - 1];
      assert forall f :: f in files <==> f in files[..|files| - 1] || f == last;
      CoverFiles(files[..|files| - 1]) + (if IsCover(last) then [last] else [])
  }

  /** A disc whose listing holds a cover file. */
  predicate HasCover(d: DiscEntry, listNow: string -> Option<seq<string>>) {
    listNow(d.folderName).Some? && CoverFiles(listNow(d.folderName).value) != []
  }

  /** The cover copies: every cover file of the first disc that has one,
      as (disc folder, file name) pairs; none exactly when no disc has one. */
  function CoverCopies(discs: seq<DiscEntry>, listNow: string -> Option<seq<string>>): (r: seq<(string, string)>)
    ensures r == [] <==> forall k :: 0 <= k < |discs| ==> !HasCover(discs[k], listNow)
  {
    if discs == [] then []
    else if HasCover(discs[0], listNow) then
      var d := discs[0];
      CoverPairs(d.folderName, CoverFiles(listNow(d.folderName).value))
    else
      assert forall k :: 1 <= k < |discs| ==> discs[k] == discs[1..][k - 1];
      CoverCopies(discs[1..], listNow)
  }

  /** The covers copied are those of the first disc that has any, in its
      listing order. */
  lemma {:induction false} CoverCopiesFirst(discs: seq<DiscEntry>, listNow: string -> Option<seq<string>>, k: nat)
    requires k < |discs| && HasCover(discs[k], listNow)
    requires forall j :: 0 <= j < k ==> !HasCover(discs[j], listNow)
    ensures CoverCopies(discs, listNow) == CoverPairs(discs[k].folderName, CoverFiles(listNow(discs[k].folderName).value))
  {
    if k > 0 {
      assert !HasCover(discs[0], listNow);
      CoverCopiesFirst(discs[1..], listNow, k - 1);
    }
  }

  /** The files of one folder paired with that folder. */
  function CoverPairs(folder: string, files: seq<string>): (r: seq<(string, string)>)
    ensures |r| == |files| && forall i :: 0 <= i < |files| ==> r[i] == (folder, files[i])
  {
    if files == [] then [] else [(folder, files[0])] + CoverPairs(folder, files[1..])
  }

  /** `consolidate_discs(base_name, disc_list, artist_path, dry_run)` with
      the intended verification; `existing` holds the names in the artist
      folder. After a verified copy the cover files of the first disc that
      has any are copied too, and `covers` lists them. */
  method ConsolidateDiscs(baseName: string, discs: seq<DiscEntry>, existing: set<string>, dryRun: bool,
                          mkdirFails: bool, listNow: string -> Option<seq<string>>)
    returns (ok: bool, manifest: seq<Copy>, covers: seq<(string, string)>)
    ensures ok == Consolidate(baseName, discs, existing, dryRun, mkdirFails, listNow)
    ensures dryRun ==> manifest == [] && covers == []
    ensures ok && !dryRun ==> manifest == CopyDiscs(discs, |discs|, listNow).value.manifest
    ensures covers == if ok && !dryRun then CoverCopies(discs, listNow) else []
  {
    manifest, covers := [], [];
    if dryRun {
      return true, [], [];
    }
    if baseName in existing || mkdirFails {
      return false, [], [];
    }
    var s := CopyState({}, []);
    var i := 0;
    while i < |discs|
      invariant 0 <= i <= |discs|
      invariant CopyDiscs(discs[..i], |discs|, listNow) == Some(s)
    {
      assert discs[..i + 1][..i] == discs[..i];
      var files := listNow(discs[i].folderName);
      if files.None? {
        CopyDiscsFails(discs, |discs|, listNow, i + 1);
        return false, s.manifest, [];
      }
      s := CopyPass(s, discs[i].folderName, discs[i].discNum, |discs|, AudioFiles(files.value));
      i := i + 1;
    }
    assert discs[..i] == discs;
    CopyDiscsTargets(discs, |discs|, listNow);
    TargetCount(s.manifest);
    ok := |s.manifest| == SumTracks(discs) && |s.inTarget| == |s.manifest|;
    manifest := s.manifest;
    if ok {
      covers := CoverCopies(discs, listNow);
    }
  }

  /** Once a disc fails, the whole copy fails. */
  lemma {:induction false} CopyDiscsFails(discs: seq<DiscEntry>, total: nat, listNow: string -> Option<seq<string>>, k: nat)
    requires 0 < k <= |discs| && CopyDiscs(discs[..k], total, listNow).None?
    ensures CopyDiscs(discs, total, listNow).None?
    decreases |discs| - k
  {
    if k < |discs| {
      assert discs[..k + 1][..k] == discs[..k];
      CopyDiscsFails(discs, total, listNow, k + 1);
    } else {
      assert discs[..k] == discs;
    }
  }

  /** The inner loop over one disc's audio files. */
  method CopyPass(s0: CopyState, folder: string, disc: nat, total: nat, files: seq<string>) returns (s: CopyState)
    ensures s == CopyFiles(s0, folder, disc, total, files)
  {
    s := s0;
    var i := 0;
    while i < |files|
      invariant 0 <= i <= |files|
      invariant s == CopyFiles(s0, folder, disc, total, files[..i])
    {
      assert files[..i + 1][..i] == files[..i];
      var f := files[i];
      var target := if f in s.inTarget then CollisionName(disc, f) else f;
      s := CopyState(s.inTarget + {target}, s.manifest + [Copy(folder, f, target, disc, DiscTag(f, disc, total))]);
      i := i + 1;
    }
    assert files[..i] == files;
  }
}
