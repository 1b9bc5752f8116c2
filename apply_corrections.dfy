/** The title-correction script: which MusicBrainz title corrections are
    safe to apply on their own, how the title mismatches of a validation
    report are split into a safe list and a manual-review list, and the
    renames of the safe ones. The album folders of the artist directory
    are a set of names; the report is a parameter. */
module ApplyCorrections {
  import opened Wrappers
  import opened Text
  import Patterns

  // ---------------------------------------------------- is_safe_correction

  /** Why a correction was judged safe or not. The overlap reasons carry the
      shared and total word counts their percentage is printed from. */
  datatype Reason =
    | FormattingOnly
    | VolumeNotationAdded
    | DiscNotationDifference
    | EmptyCorrectTitle
    | HighWordOverlap(shared: nat, total: nat)
    | DifferentTitles(shared: nat, total: nat)

  datatype Verdict = Verdict(safe: bool, reason: Reason)

  /** The characters deleted before two titles are compared: `_-:[](),.` and the blank. */
  const Ignored: set<char> := {'_', '-', ':', '[', ']', '(', ')', ',', '.', ' '}

  /** `title.lower().strip()`. */
  function Norm(title: string): string {
    Strip(Lower(title))
  }

  /** The normalised title with the ignored characters deleted. */
  function Cleaned(title: string): (c: string)
    ensures forall x :: x in c ==> x !in Ignored
  {
    DeleteChars(Norm(title), Ignored)
  }

  /** `disc\s*\d+` at the front of `t`. */
  function DiscDigitsLen(t: string): (n: nat)
    ensures n <= |t|
  {
    if |t| < 4 || t[..4] != "disc" then 0
    else
      var c := 4 + |LeadingSpaces(t[4..])|;
      var d := |LeadingDigits(t[c..])|;
      if d == 0 then 0 else c + d
  }

  /** `re.sub(r'disc\s*\d+', '', t)`. */
  function NoDisc(t: string): string {
    Patterns.RemoveMatches(t, DiscDigitsLen)
  }

  /** The set of words of the normalised title. */
  function WordSet(title: string): set<string> {
    set w | w in Words(Norm(title))
  }

  /** At least 70% of the correct title's words occur in the local title,
      with the ratio compared exactly. */
  predicate HighOverlap(shared: nat, total: nat) {
    10 * shared >= 7 * total
  }

  /** `is_safe_correction(local_title, correct_title)`: the tests in the order
      the script applies them, each with the reason it reports. */
  function IsSafeCorrection(local: string, correct: string): (v: Verdict)
    ensures v.reason == FormattingOnly <==> Cleaned(local) == Cleaned(correct)
    ensures v.reason == VolumeNotationAdded <==>
      Cleaned(local) != Cleaned(correct) && Contains(Cleaned(correct), Cleaned(local)) && Contains(Cleaned(correct), "vol")
    ensures v.reason == DiscNotationDifference ==>
      Cleaned(local) != Cleaned(correct) && NoDisc(Cleaned(local)) == NoDisc(Cleaned(correct))
    ensures v.reason == EmptyCorrectTitle ==> WordSet(correct) == {}
    ensures v.reason.HighWordOverlap? || v.reason.DifferentTitles? ==>
      v.reason.total == |WordSet(correct)| > 0 && v.reason.shared == |WordSet(local) * WordSet(correct)|
    ensures v.safe <==> !(v.reason.EmptyCorrectTitle? || v.reason.DifferentTitles?)
    ensures v.reason.HighWordOverlap? ==> HighOverlap(v.reason.shared, v.reason.total)
    ensures v.reason.DifferentTitles? ==> !HighOverlap(v.reason.shared, v.reason.total)
  {
    var l, c := Cleaned(local), Cleaned(correct);
    if l == c then Verdict(true, FormattingOnly)
    else if Contains(c, l) && Contains(c, "vol") then Verdict(true, VolumeNotationAdded)
    else if NoDisc(l) == NoDisc(c) then Verdict(true, DiscNotationDifference)
    else
      var lw, cw := WordSet(local), WordSet(correct);
      if cw == {} then Verdict(false, EmptyCorrectTitle)
      else
        var shared := |lw * cw|;
        if HighOverlap(shared, |cw|) then Verdict(true, HighWordOverlap(shared, |cw|))
        else Verdict(false, DifferentTitles(shared, |cw|))
  }

  /** Titles that differ only in letter case are a formatting-only correction. */
  lemma CaseOnlyIsFormatting(local: string, correct: string)
    requires Lower(local) == Lower(correct)
    ensures IsSafeCorrection(local, correct) == Verdict(true, FormattingOnly)
  {
  }

  /** Whether a correction is formatting only does not depend on which title is the local one. */
  lemma FormattingOnlySymmetric(local: string, correct: string)
    ensures IsSafeCorrection(local, correct).reason == FormattingOnly
        <==> IsSafeCorrection(correct, local).reason == FormattingOnly
  {
  }

  /** A correction that keeps every word of the local title and adds none is
      safe, whatever the other tests find. */
  lemma SameWordsIsSafe(local: string, correct: string)
    requires WordSet(local) == WordSet(correct) != {}
    ensures IsSafeCorrection(local, correct).safe
  {
    var cw := WordSet(correct);
    var v := IsSafeCorrection(local, correct);
    assert WordSet(local) * cw == cw;
    assert HighOverlap(|cw|, |cw|);
    assert !v.reason.EmptyCorrectTitle?;
  }

  /** A correct title sharing no word with a different local title is never
      accepted on word overlap. */
  lemma DisjointWordsNotByOverlap(local: string, correct: string)
    requires WordSet(local) * WordSet(correct) == {}
    ensures !IsSafeCorrection(local, correct).reason.HighWordOverlap?
  {
  }

  // ---------------------------------------------- apply_title_corrections

  /** One album of the validation report: its `title_match` flag (`None`
      when absent or null), both titles and the MusicBrainz id. */
  datatype AlbumReport = AlbumReport(
    titleMatch: Option<bool>, titleLocal: string, titleCorrect: string, musicbrainzId: Option<string>)

  /** One entry of the safe or the manual-review list. */
  datatype Correction = Correction(oldName: string, newName: string, reason: Reason, musicbrainzId: Option<string>)

  /** Only albums whose `title_match` is false are considered. */
  predicate IsMismatch(a: AlbumReport) {
    a.titleMatch == Some(false)
  }

  function ToCorrection(a: AlbumReport): (c: Correction)
    ensures c.oldName == a.titleLocal && c.newName == a.titleCorrect && c.musicbrainzId == a.musicbrainzId
    ensures c.reason == IsSafeCorrection(a.titleLocal, a.titleCorrect).reason
  {
    Correction(a.titleLocal, a.titleCorrect, IsSafeCorrection(a.titleLocal, a.titleCorrect).reason, a.musicbrainzId)
  }

  /** Only a formatting-only verdict is applied automatically. */
  predicate IsAutomatic(a: AlbumReport) {
    var v := IsSafeCorrection(a.titleLocal, a.titleCorrect);
    v.safe && v.reason == FormattingOnly
  }

  function Mismatches(albums: seq<AlbumReport>): (ms: seq<AlbumReport>)
    ensures forall a :: a in ms ==> a in albums && IsMismatch(a)
  {
    if albums == [] then []
    else
      var last := albums[|albums| - 1];
      Mismatches(albums[..|albums| - 1]) + (if IsMismatch(last) then [last] else [])
  }

  /** The safe list: a correction for every mismatch applied automatically, in report order. */
  function SafeCorrections(albums: seq<AlbumReport>): (cs: seq<Correction>)
    ensures forall c :: c in cs ==> c.reason == FormattingOnly
  {
    if albums == [] then []
    else
      var last := albums[|albums| - 1];
      SafeCorrections(albums[..|albums| - 1])
        + (if IsMismatch(last) && IsAutomatic(last) then [ToCorrection(last)] else [])
  }

  /** The manual-review list: a correction for every other mismatch, in report order. */
  function ManualReview(albums: seq<AlbumReport>): (cs: seq<Correction>)
    ensures forall c :: c in cs ==> c.reason != FormattingOnly
  {
    if albums == [] then []
    else
      var last := albums[|albums| - 1];
      ManualReview(albums[..|albums| - 1])
        + (if IsMismatch(last) && !IsAutomatic(last) then [ToCorrection(last)] else [])
  }

  /** Every title mismatch lands in exactly one of the two lists. */
  lemma {:induction false} PartitionComplete(albums: seq<AlbumReport>)
    ensures |SafeCorrections(albums)| + |ManualReview(albums)| == |Mismatches(albums)|
  {
    if albums != [] {
      PartitionComplete(albums[..|albums| - 1]);
    }
  }

  /** A mismatch that goes to the safe list. */
  predicate IsSafeMismatch(a: AlbumReport) { IsMismatch(a) && IsAutomatic(a) }

  /** A mismatch that goes to the manual-review list. */
  predicate IsManualMismatch(a: AlbumReport) { IsMismatch(a) && !IsAutomatic(a) }

  /** The images under `f` of the elements `keep` selects, in order. */
  function Selected<A, B>(keep: A -> bool, f: A -> B, xs: seq<A>): (ys: seq<B>)
    ensures |ys| <= |xs|
  {
    if xs == [] then []
    else Selected(keep, f, xs[..|xs| - 1]) + (if keep(xs[|xs| - 1]) then [f(xs[|xs| - 1])] else [])
  }

  /** Both lists are selections of the corrections of the report. */
  lemma {:induction false} ListsSelected(albums: seq<AlbumReport>)
    ensures SafeCorrections(albums) == Selected(IsSafeMismatch, ToCorrection, albums)
    ensures ManualReview(albums) == Selected(IsManualMismatch, ToCorrection, albums)
  {
    if albums != [] {
      ListsSelected(albums[..|albums| - 1]);
    }
  }

  /** A loop that adds each element's image to every list whose test
      selects it, keeping the order of each. */
  method SplitPass<A, B>(left: A -> bool, right: A -> bool, f: A -> B, xs: seq<A>) returns (ls: seq<B>, rs: seq<B>)
    ensures ls == Selected(left, f, xs) && rs == Selected(right, f, xs)
  {
    ls, rs := [], [];
    var i := 0;
    while i < |xs|
      invariant 0 <= i <= |xs|
      invariant ls == Selected(left, f, xs[..i]) && rs == Selected(right, f, xs[..i])
    {
      assert xs[..i + 1][..i] == xs[..i];
      if left(xs[i]) {
        ls := ls + [f(xs[i])];
      }
      if right(xs[i]) {
        rs := rs + [f(xs[i])];
      }
      i := i + 1;
    }
    assert xs[..i] == xs;
  }

  /** The loop of `apply_title_corrections` that sorts the mismatches into the two lists. */
  method Partition(albums: seq<AlbumReport>) returns (safe: seq<Correction>, manual: seq<Correction>)
    ensures safe == SafeCorrections(albums) && manual == ManualReview(albums)
  {
    safe, manual := SplitPass(IsSafeMismatch, IsManualMismatch, ToCorrection, albums);
    ListsSelected(albums);
  }

  /** The folders of the artist directory and the two counters of the rename loop. */
  datatype RenameTally = RenameTally(folders: set<string>, success: nat, errors: nat)

  /** One rename: a missing source folder or an existing target is an error
      and changes nothing; a rename the file system refuses (`refused`) is an
      error too; otherwise the folder takes its new name. */
  function RenameStep(t: RenameTally, c: Correction, refused: set<string>): (r: RenameTally)
    ensures r.success + r.errors == t.success + t.errors + 1
    ensures r.success == t.success + 1 ==> r.folders == t.folders - {c.oldName} + {c.newName}
    ensures r.errors == t.errors + 1 ==> r.folders == t.folders
  {
    if c.oldName !in t.folders || c.newName in t.folders || c.oldName in refused
    then t.(errors := t.errors + 1)
    else RenameTally(t.folders - {c.oldName} + {c.newName}, t.success + 1, t.errors)
  }

  /** The renames of a list of corrections, applied in order. */
  function Renames(folders: set<string>, cs: seq<Correction>, refused: set<string>): RenameTally {
    if cs == [] then RenameTally(folders, 0, 0)
    else RenameStep(Renames(folders, cs[..|cs| - 1], refused), cs[|cs| - 1], refused)
  }

  /** Every correction is counted once, as a success or as an error. */
  lemma {:induction false} RenamesCounted(folders: set<string>, cs: seq<Correction>, refused: set<string>)
    ensures Renames(folders, cs, refused).success + Renames(folders, cs, refused).errors == |cs|
  {
    if cs != [] {
      RenamesCounted(folders, cs[..|cs| - 1], refused);
    }
  }

  /** A rename never merges or loses folders: the directory keeps its size. */
  lemma {:induction false} RenamesKeepCount(folders: set<string>, cs: seq<Correction>, refused: set<string>)
    ensures |Renames(folders, cs, refused).folders| == |folders|
  {
    if cs != [] {
      RenamesKeepCount(folders, cs[..|cs| - 1], refused);
      var t := Renames(folders, cs[..|cs| - 1], refused);
      var c := cs[|cs| - 1];
      if c.oldName in t.folders && c.newName !in t.folders && c.oldName !in refused {
        assert |t.folders - {c.oldName}| == |t.folders| - 1;
      }
    }
  }

  /** `apply_title_corrections`: the two lists, then (unless in a dry run) the
      renames of the safe list. A dry run changes nothing and reports zero
      successes and zero errors. */
  method ApplyTitleCorrections(albums: seq<AlbumReport>, folders: set<string>, refused: set<string>, dryRun: bool)
    returns (safe: seq<Correction>, manual: seq<Correction>, after: set<string>, successCount: nat, errorCount: nat)
    ensures safe == SafeCorrections(albums) && manual == ManualReview(albums)
    ensures dryRun ==> after == folders && successCount == 0 && errorCount == 0
    ensures !dryRun ==> RenameTally(after, successCount, errorCount) == Renames(folders, safe, refused)
    ensures !dryRun ==> successCount + errorCount == |safe|
  {
    safe, manual := Partition(albums);
    if dryRun {
      return safe, manual, folders, 0, 0;
    }
    var t := RenamePass(folders, safe, refused);
    RenamesCounted(folders, safe, refused);
    after, successCount, errorCount := t.folders, t.success, t.errors;
  }

  /** The rename loop over the safe list. */
  method RenamePass(folders: set<string>, cs: seq<Correction>, refused: set<string>) returns (t: RenameTally)
    ensures t == Renames(folders, cs, refused)
  {
    t := RenameTally(folders, 0, 0);
    var i := 0;
    while i < |cs|
      invariant 0 <= i <= |cs|
      invariant t == Renames(folders, cs[..i], refused)
    {
      assert cs[..i + 1][..i] == cs[..i];
      var c := cs[i];
      if c.oldName !in t.folders {
        t := t.(errors := t.errors + 1);
      } else if c.newName in t.folders {
        t := t.(errors := t.errors + 1);
      } else if c.oldName in refused {
        t := t.(errors := t.errors + 1);
      } else {
        t := RenameTally(t.folders - {c.oldName} + {c.newName}, t.success + 1, t.errors);
      }
      i := i + 1;
    }
    assert cs[..i] == cs;
  }
}
