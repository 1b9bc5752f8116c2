/** The folder-name validator: the Windows-safe form of an album title, the
    classification of a folder whose name differs from it, the scan that
    collects those folders as issues, and the renames that fix them. The
    album title read from a folder's first MP3 is part of the listing; the
    directory is the set of names that exist in it. */
module FolderValidator {
  import opened Wrappers
  import opened Text
  import Patterns

  datatype IssueType = Truncated | Substitution | MultiDisc | Mismatch | Unknown

  /** A folder whose name is not the safe form of its album title. */
  datatype FolderIssue = FolderIssue(folderName: string, metadataAlbum: string, expectedName: string, issueType: IssueType)

  // ---------------------------------------------------- make_windows_safe

  /** The characters deleted outright. */
  const Deleted: set<char> := {'?', '*', '"', '<', '>', '|'}

  /** `make_windows_safe(name)`: each `:` becomes ` -`, the characters of
      `Deleted` go, whitespace runs become single blanks and the ends are
      trimmed. */
  function MakeWindowsSafe(name: string): (r: string)
    ensures Tidy(r)
    ensures ':' !in r && forall x :: x in r ==> x !in Deleted
    ensures forall x :: x in r ==> x in name || x == ' ' || x == '-'
  {
    var a := ReplaceChar(name, ':', " -");
    var b := DeleteChars(a, Deleted);
    var c := Collapse(b);
    StripTidy(c);
    assert forall x :: x in c ==> x != ':' && x !in Deleted && (x in name || x == ' ' || x == '-') by {
      forall x | x in c ensures x != ':' && x !in Deleted && (x in name || x == ' ' || x == '-') {
        if x != ' ' {
          assert x in b;
          assert x in a && x !in Deleted;
        }
      }
    }
    Strip(c)
  }

  /** A safe name is its own safe form. */
  lemma MakeWindowsSafeIdempotent(name: string)
    ensures MakeWindowsSafe(MakeWindowsSafe(name)) == MakeWindowsSafe(name)
  {
    var s := MakeWindowsSafe(name);
    assert ReplaceChar(s, ':', " -") == s;
    assert DeleteChars(s, Deleted) == s;
    CollapseTidy(s);
    StripTidy(s);
  }

  // ----------------------------------------------------- categorize_issue

  /** The end of the Python slice `[:end]` of a string of length `n`. */
  function SliceEnd(n: nat, end: int): (e: nat)
    ensures e <= n
  {
    if end >= 0 then (if end <= n then end else n)
    else if n + end >= 0 then n + end else 0
  }

  /** `safe_metadata.lower().startswith(folder_name.lower()[:len(folder_name)-3])`. */
  predicate LooksTruncated(folderName: string, safe: string) {
    var f := Lower(folderName);
    f[..SliceEnd(|f|, |f| - 3)] <= Lower(safe)
  }

  /** `\[Disc\s*\d+\]` at index `i`, case-insensitive. */
  predicate BracketDiscAt(t: string, i: nat) {
    i < |t| && t[i] == '[' && Patterns.LiteralAt(t, i + 1, "disc") &&
    var c := i + 5 + |LeadingSpaces(t[i + 5..])|;
    var d := |LeadingDigits(t[c..])|;
    d > 0 && c + d < |t| && t[c + d] == ']'
  }

  /** `<kw>\s*\d+` at index `i`, case-insensitive. */
  predicate WordDiscAt(t: string, i: nat, kw: string) {
    Patterns.LiteralAt(t, i, kw) &&
    var c := i + |kw| + |LeadingSpaces(t[i + |kw|..])|;
    |LeadingDigits(t[c..])| > 0
  }

  predicate DiscWordAt(t: string, i: nat) { WordDiscAt(t, i, "disc") }
  predicate CdWordAt(t: string, i: nat) { WordDiscAt(t, i, "cd") }

  /** `re.search(pattern, t)` for a pattern given by where it matches. */
  predicate Found(t: string, at: (string, nat) -> bool) {
    Patterns.FirstWhere(t, at, 0).Some?
  }

  /** The three disc patterns, tried in order on the folder name and then on the album title. */
  predicate HasDiscIndicator(folderName: string, metadata: string) {
    Found(folderName, BracketDiscAt) || Found(metadata, BracketDiscAt)
    || Found(folderName, DiscWordAt) || Found(metadata, DiscWordAt)
    || Found(folderName, CdWordAt) || Found(metadata, CdWordAt)
  }

  /** `categorize_issue(folder_name, metadata)`: a folder shorter than the
      safe title and (but for its last three characters) a prefix of it is
      truncated; otherwise an underscore, `é` or `à` in it means a character
      substitution; otherwise a disc indicator in either name means a
      multi-disc folder; anything else is a mismatch. */
  function CategorizeIssue(folderName: string, metadata: string): (t: IssueType)
    ensures t != Unknown
    ensures t == Truncated <==>
      |folderName| < |MakeWindowsSafe(metadata)| && LooksTruncated(folderName, MakeWindowsSafe(metadata))
    ensures t == Substitution ==> '_' in folderName || 'é' in folderName || 'à' in folderName
    ensures t == MultiDisc ==> HasDiscIndicator(folderName, metadata)
    ensures t == Mismatch ==>
      (!HasDiscIndicator(folderName, metadata) && '_' !in folderName && 'é' !in folderName && 'à' !in folderName)
  {
    var safe := MakeWindowsSafe(metadata);
    if |folderName| < |safe| && LooksTruncated(folderName, safe) then Truncated
    else if '_' in folderName || 'é' in folderName || 'à' in folderName then Substitution
    else if HasDiscIndicator(folderName, metadata) then MultiDisc
    else Mismatch
  }

  /** Lower-casing keeps a prefix a prefix. */
  lemma LowerPrefix(a: string, b: string)
    requires a <= b
    ensures Lower(a) <= Lower(b)
  {
    assert forall i :: 0 <= i < |a| ==> Lower(a)[i] == Lower(b)[i];
  }

  /** A proper prefix of the safe title looks truncated. */
  lemma ProperPrefixLooksTruncated(folderName: string, safe: string)
    requires folderName < safe
    ensures |folderName| < |safe| && LooksTruncated(folderName, safe)
  {
    LowerPrefix(folderName, safe);
    var f := Lower(folderName);
    assert f[..SliceEnd(|f|, |f| - 3)] <= f;
  }

  /** A folder named by the first characters of the safe title, short of
      it, is classed as truncated. */
  lemma PrefixIsTruncated(folderName: string, metadata: string)
    requires folderName < MakeWindowsSafe(metadata)
    ensures CategorizeIssue(folderName, metadata) == Truncated
  {
    ProperPrefixLooksTruncated(folderName, MakeWindowsSafe(metadata));
  }

  // ------------------------------------------------------------------ scan

  /** A folder of the listing and the album title of its first MP3 (`None`
      when it has no MP3, the tag is empty or reading it failed). */
  datatype Folder = Folder(name: string, album: Option<string>)

  /** The issue a folder gives rise to, if any: only a folder with a
      non-empty album title whose name differs from the title's safe form. */
  function IssueOf(f: Folder): (r: Option<FolderIssue>)
    ensures r.Some? <==> f.album.Some? && f.album.value != [] && f.name != MakeWindowsSafe(f.album.value)
    ensures r.Some? ==>
      (r.value.folderName == f.name && r.value.expectedName == MakeWindowsSafe(f.album.value)
       && r.value.issueType == CategorizeIssue(f.name, f.album.value) && r.value.metadataAlbum == f.album.value)
  {
    if f.album.None? || f.album.value == [] then None
    else
      var expected := MakeWindowsSafe(f.album.value);
      if f.name != expected then Some(FolderIssue(f.name, f.album.value, expected, CategorizeIssue(f.name, f.album.value)))
      else None
  }

  /** The issues of a listing, in listing order. */
  function IssuesOf(listing: seq<Folder>): (issues: seq<FolderIssue>)
    ensures |issues| <= |listing|
    ensures forall i :: 0 <= i < |issues| ==> issues[i].folderName != issues[i].expectedName
  {
    var issues := Somes(listing, IssueOf);
    forall i | 0 <= i < |issues| ensures issues[i].folderName != issues[i].expectedName {
      assert issues[i] in issues;
      var f :| f in listing && IssueOf(f) == Some(issues[i]);
    }
    issues
  }

  // -------------------------------------------------------------- fix_issue

  /** `fix_issue(issue, dry_run)` on the names of the parent directory:
      multi-disc issues and existing targets are skipped, a dry run reports
      success without renaming, a rename the file system refuses (or of a
      folder that is gone) fails, and otherwise the folder takes its
      expected name. */
  function FixIssue(existing: set<string>, issue: FolderIssue, dryRun: bool, refused: set<string>): (r: (bool, set<string>))
    ensures issue.issueType == MultiDisc ==> r == (false, existing)
    ensures issue.expectedName in existing ==> r == (false, existing)
    ensures dryRun && issue.issueType != MultiDisc && issue.expectedName !in existing ==> r == (true, existing)
    ensures r.1 == existing || r.1 == existing - {issue.folderName} + {issue.expectedName}
    ensures r.1 != existing ==> r.0 && !dryRun && issue.folderName in existing
  {
    if issue.issueType == MultiDisc then (false, existing)
    else if issue.expectedName in existing then (false, existing)
    else if dryRun then (true, existing)
    else if issue.folderName !in existing || issue.folderName in refused then (false, existing)
    else (true, existing - {issue.folderName} + {issue.expectedName})
  }

  // ----------------------------------------------------------------- fix_all

  /** The issue types in order of first appearance: the key order of `by_type`. */
  function TypeOrder(issues: seq<FolderIssue>): (order: seq<IssueType>)
    ensures forall i :: 0 <= i < |issues| ==> issues[i].issueType in order
    ensures forall i, j :: 0 <= i < j < |order| ==> order[i] != order[j]
  {
    if issues == [] then []
    else
      var init := TypeOrder(issues[..|issues| - 1]);
      var t := issues[|issues| - 1].issueType;
      assert forall i :: 0 <= i < |issues| - 1 ==> issues[i] == issues[..|issues| - 1][i];
      if t in init then init else init + [t]
  }

  /** The issues of one type, in order: one list of `by_type`. */
  function ByType(issues: seq<FolderIssue>, t: IssueType): (group: seq<FolderIssue>)
    ensures forall x :: x in group ==> x.issueType == t
  {
    if issues == [] then []
    else
      var last := issues[|issues| - 1];
      ByType(issues[..|issues| - 1], t) + (if last.issueType == t then [last] else [])
  }

  /** The number of issues in the groups of the given types. */
  function GroupSizes(issues: seq<FolderIssue>, order: seq<IssueType>): nat {
    if order == [] then 0
    else GroupSizes(issues, order[..|order| - 1]) + |ByType(issues, order[|order| - 1])|
  }

  /** A type that no issue has has an empty group. */
  lemma {:induction false} AbsentTypeEmpty(issues: seq<FolderIssue>, t: IssueType)
    requires t !in TypeOrder(issues)
    ensures ByType(issues, t) == []
  {
    if issues != [] {
      var init := issues[..|issues| - 1];
      assert t !in TypeOrder(init);
      AbsentTypeEmpty(init, t);
    }
  }

  /** One more issue adds one to the groups of the given types exactly when its type is among them. */
  lemma {:induction false} GroupSizesSnoc(init: seq<FolderIssue>, x: FolderIssue, order: seq<IssueType>)
    requires forall i, j :: 0 <= i < j < |order| ==> order[i] != order[j]
    ensures GroupSizes(init + [x], order) == GroupSizes(init, order) + (if x.issueType in order then 1 else 0)
  {
    assert (init + [x])[..|init + [x]| - 1] == init;
    if order != [] {
      var o := order[..|order| - 1];
      GroupSizesSnoc(init, x, o);
      assert x.issueType in order <==> x.issueType in o || x.issueType == order[|order| - 1];
    }
  }

  /** The groups together hold every issue once. */
  lemma {:induction false} GroupsCoverIssues(issues: seq<FolderIssue>)
    ensures GroupSizes(issues, TypeOrder(issues)) == |issues|
  {
    if issues != [] {
      var init := issues[..|issues| - 1];
      var x := issues[|issues| - 1];
      assert issues == init + [x];
      GroupsCoverIssues(init);
      var o := TypeOrder(init);
      GroupSizesSnoc(init, x, o);
      if x.issueType !in o {
        AbsentTypeEmpty(init, x.issueType);
        assert GroupSizes(issues, o + [x.issueType]) == GroupSizes(issues, o) + |ByType(issues, x.issueType)|
          by { assert (o + [x.issueType])[..|o|] == o; }
      }
    }
  }

  /** The counters and the directory as the fixes go. */
  datatype FixState = FixState(existing: set<string>, fixed: nat, skipped: nat)

  function FixStep(s: FixState, issue: FolderIssue, dryRun: bool, refused: set<string>): FixState {
    var r := FixIssue(s.existing, issue, dryRun, refused);
    if r.0 then FixState(r.1, s.fixed + 1, s.skipped) else FixState(r.1, s.fixed, s.skipped + 1)
  }

  /** The fixes of one group, in order. */
  function FixGroup(s: FixState, group: seq<FolderIssue>, dryRun: bool, refused: set<string>): (r: FixState)
    ensures r.fixed + r.skipped == s.fixed + s.skipped + |group|
  {
    if group == [] then s
    else FixStep(FixGroup(s, group[..|group| - 1], dryRun, refused), group[|group| - 1], dryRun, refused)
  }

  /** The fixes of the groups of the given types, in order. */
  function FixGroups(s: FixState, issues: seq<FolderIssue>, order: seq<IssueType>, dryRun: bool, refused: set<string>)
    : (r: FixState)
    ensures r.fixed + r.skipped == s.fixed + s.skipped + GroupSizes(issues, order)
  {
    if order == [] then s
    else FixGroup(FixGroups(s, issues, order[..|order| - 1], dryRun, refused), ByType(issues, order[|order| - 1]), dryRun, refused)
  }

  /** The counters `fix_all` returns. */
  datatype FixResults = FixResults(scanned: nat, issues: nat, fixed: nat, skipped: nat, errors: nat)

  class FolderValidator {
    var issues: seq<FolderIssue>

    constructor ()
      ensures issues == []
    {
      issues := [];
    }

    /** `scan(path)`: the issues of the listed folders, kept in `issues`. */
    method Scan(listing: seq<Folder>) returns (found: seq<FolderIssue>)
      modifies this
      ensures issues == IssuesOf(listing) && found == issues
    {
      issues := [];
      var i := 0;
      while i < |listing|
        invariant 0 <= i <= |listing|
        invariant issues == IssuesOf(listing[..i])
      {
        assert listing[..i + 1][..i] == listing[..i];
        var r := IssueOf(listing[i]);
        if r.Some? {
          issues := issues + [r.value];
        }
        i := i + 1;
      }
      assert listing[..i] == listing;
      found := issues;
    }

    /** `fix_all(path, dry_run)`: scan, then fix the issues one type at a
        time, types in order of first appearance. Every issue is counted as
        fixed or skipped, and the error counter is never raised. */
    method FixAll(listing: seq<Folder>, entries: nat, existing: set<string>, dryRun: bool, refused: set<string>)
      returns (results: FixResults, after: set<string>)
      modifies this
      ensures issues == IssuesOf(listing)
      ensures results.scanned == entries && results.issues == |issues| && results.errors == 0
      ensures results.fixed + results.skipped == results.issues
      ensures FixState(after, results.fixed, results.skipped)
              == FixGroups(FixState(existing, 0, 0), issues, TypeOrder(issues), dryRun, refused)
    {
      var found := Scan(listing);
      results := FixResults(entries, |found|, 0, 0, 0);
      after := existing;
      GroupsCoverIssues(found);
      if found == [] {
        return;
      }
      var s := FixGroupsPass(FixState(existing, 0, 0), found, TypeOrder(found), dryRun, refused);
      results := results.(fixed := s.fixed, skipped := s.skipped);
      after := s.existing;
    }
  }

  /** The outer loop of `fix_all` over the issue types. */
  method FixGroupsPass(s0: FixState, issues: seq<FolderIssue>, order: seq<IssueType>, dryRun: bool, refused: set<string>)
    returns (s: FixState)
    ensures s == FixGroups(s0, issues, order, dryRun, refused)
  {
    s := s0;
    var k := 0;
    while k < |order|
      invariant 0 <= k <= |order|
      invariant s == FixGroups(s0, issues, order[..k], dryRun, refused)
    {
      assert order[..k + 1][..k] == order[..k];
      s := FixGroupPass(s, ByType(issues, order[k]), dryRun, refused);
      k := k + 1;
    }
    assert order[..k] == order;
  }

  /** The inner loop of `fix_all` over the issues of one type. */
  method FixGroupPass(s0: FixState, group: seq<FolderIssue>, dryRun: bool, refused: set<string>) returns (s: FixState)
    ensures s == FixGroup(s0, group, dryRun, refused)
  {
    s := s0;
    var i := 0;
    while i < |group|
      invariant 0 <= i <= |group|
      invariant s == FixGroup(s0, group[..i], dryRun, refused)
    {
      assert group[..i + 1][..i] == group[..i];
      var ok, existing := FixIssue(s.existing, group[i], dryRun, refused).0, FixIssue(s.existing, group[i], dryRun, refused).1;
      if ok {
        s := FixState(existing, s.fixed + 1, s.skipped);
      } else {
        s := FixState(existing, s.fixed, s.skipped + 1);
      }
      i := i + 1;
    }
    assert group[..i] == group;
  }
}
