/** The fixer agent: applies an album's corrections one by one, isolating
    failures, following the folder through renames, and renames audio
    files after their titles. The file system is an `Env` of answers
    (does a path exist, does a rename or a download fail, how many files a
    tag edit reached); tag reading is an abstract `Tags` value per file. */
module Fixer {
  import opened Wrappers
  import opened Text
  import Json
  import State
  import Validator

  // ---------------------------------------------------------- safe names

  /** Cut to 200 characters and strip, as both name makers do. */
  function CapLength(s: string): (r: string)
    requires Tidy(s)
    ensures Tidy(r) && |r| <= 200
    ensures forall x :: x in r ==> x in s
    ensures |s| <= 200 ==> r == s
  {
    if |s| > 200 then
      StripPrefixTidy(s, 200);
      assert forall x :: x in s[..200] ==> x in s;
      Strip(s[..200])
    else s
  }

  /** The characters a Windows file name may not hold, colon aside. */
  predicate WindowsInvalid(c: char) {
    c == '<' || c == '>' || c == '"' || c == '/' || c == '\\' || c == '|' || c == '?' || c == '*'
  }

  /** `_make_windows_safe`: colons become `colonReplacement` (" -" by
      default), the other invalid characters are deleted, whitespace is
      collapsed and the result is cut to 200 characters. */
  function MakeWindowsSafe(name: string, colonReplacement: string): (r: string)
    ensures forall x :: x in r ==> !WindowsInvalid(x)
    ensures ':' !in colonReplacement ==> ':' !in r
    ensures forall x :: x in r ==> x == ' ' || x in name || x in colonReplacement
    ensures Tidy(r) && |r| <= 200
  {
    var a := ReplaceChar(name, ':', colonReplacement);
    var b := DeleteChars(a, {'<', '>', '"', '/', '\\', '|', '?', '*'});
    var c := Collapse(b);
    CapLength(c)
  }

  /** No character of `s` is in `cs`. */
  predicate Avoids(s: string, cs: set<char>) { forall x :: x in s ==> x !in cs }

  /** Replacing `c` by a text free of `cs` and of `c` keeps a text free of `cs`, and of `c` too. */
  lemma ReplaceAvoids(s: string, c: char, r: string, cs: set<char>)
    requires Avoids(s, cs) && Avoids(r, cs + {c})
    ensures Avoids(ReplaceChar(s, c, r), cs + {c})
  {
  }

  /** Characters `_make_filename_safe` never leaves. */
  predicate FilenameInvalid(c: char) {
    c == '/' || c == '\\' || c == ':' || c == '"' || c == '<' || c == '>' || c == '|' || c == '?' || c == '*'
  }

  /** The first four replacements of `_make_filename_safe`, in its order. */
  function ReplaceSeparators(name: string): (d: string)
    ensures Avoids(d, {'/', '\\', ':', '"'})
  {
    var a := ReplaceChar(name, '/', " - ");
    ReplaceAvoids(name, '/', " - ", {});
    var b := ReplaceChar(a, '\\', " - ");
    ReplaceAvoids(a, '\\', " - ", {'/'});
    var c := ReplaceChar(b, ':', " -");
    ReplaceAvoids(b, ':', " -", {'/', '\\'});
    ReplaceAvoids(c, '"', "'", {'/', '\\', ':'});
    ReplaceChar(c, '"', "'")
  }

  /** `_make_filename_safe`: `/` and `\` become " - ", `:` becomes " -",
      `"` becomes `'`, `<>|?*` are deleted, whitespace is collapsed and the
      result is cut to 200 characters. */
  function MakeFilenameSafe(name: string): (r: string)
    ensures forall x :: x in r ==> !FilenameInvalid(x)
    ensures Tidy(r) && |r| <= 200
  {
    var e := DeleteChars(ReplaceSeparators(name), {'<', '>', '|', '?', '*'});
    var f := Collapse(e);
    CapLength(f)
  }

  // --------------------------------------------------------------- paths

  /** The index of the last `/` in `p`, or -1 when there is none. */
  function LastSlash(p: string): (k: int)
    ensures -1 <= k < |p|
    ensures k >= 0 ==> p[k] == '/'
    ensures forall j :: k < j < |p| ==> p[j] != '/'
  {
    if p == [] then -1
    else if p[|p| - 1] == '/' then |p| - 1
    else LastSlash(p[..|p| - 1])
  }

  /** `Path(p).name`: the text after the last `/`. */
  function BaseName(p: string): (r: string)
    ensures '/' !in r
    ensures EndsWith(p, r)
  {
    p[LastSlash(p) + 1..]
  }

  /** `Path(p).parent`, as text: what precedes the last `/`; the root "/"
      when that is nothing; empty (the current folder) when there is no `/`. */
  function Parent(p: string): (r: string)
  {
    var k := LastSlash(p);
    if k < 0 then [] else if k == 0 then "/" else p[..k]
  }

  /** `parent / name` as text; no separator is added after the root. */
  function JoinPath(parent: string, name: string): (r: string)
    ensures parent == [] ==> r == name
    ensures parent == "/" ==> r == "/" + name
    ensures parent != [] && parent != "/" ==> r == parent + "/" + name
  {
    if parent == [] then name
    else if parent == "/" then "/" + name
    else parent + "/" + name
  }

  /** Splitting a path into its parent and its name and joining them back
      gives the path again (a path opening with `//` aside, which `pathlib`
      keeps as a special root). */
  lemma JoinParentBase(p: string)
    requires !(|p| >= 2 && p[0] == '/' && p[1] == '/')
    ensures JoinPath(Parent(p), BaseName(p)) == p
  {
    var k := LastSlash(p);
    if k < 0 {
      assert BaseName(p) == p;
    } else if k == 0 {
      assert p == "/" + p[1..];
    } else {
      assert p[..k] != "/" by {
        if k == 1 { assert p[0] != '/'; }
      }
      assert p == p[..k] + "/" + p[k + 1..];
    }
  }

  // ------------------------------------------------------ corrections

  /** What was changed, by kind: a folder move, a cover taken from a URL,
      a genre written to some files. */
  datatype Detail = Moved(newPath: string) | FromUrl(sourceUrl: string) | FilesUpdated(count: nat)

  /** A change record as `apply_fixes` collects it: a dry-run entry, or a
      change made. */
  datatype Change =
    | Planned(kind: string, field: string)
    | Made(kind: string, field: string, oldValue: Option<string>, newValue: string, detail: Detail)
  {
    /** `change.get('new_path')`. */
    function NewPath(): Option<string> {
      if Made? && detail.Moved? then Some(detail.newPath) else None
    }
  }

  /** What applying one correction does: nothing, a change, or an exception
      with its message. */
  datatype Step = Skip | Applied(change: Change) | Raised(message: string)

  /** The answers of the file system and the network. */
  datatype Env = Env(
    present: string -> bool,                          // `Path(p).exists()`
    renameError: (string, string) -> Option<string>,  // what `os.rename(a, b)` raises
    download: string -> Result<nat, string>,          // download error, or files the cover went into
    genreUpdated: (string, string) -> nat)            // files whose genre tag was rewritten

  /** The fixer's settings: `naming.replace_colon_with`,
      `naming.max_path_length`, `library.backup_enabled` and
      `library.backup_path`. */
  datatype Settings = Settings(colonReplacement: string, maxPathLength: int, backupEnabled: bool, backupPath: string)

  /** The defaults: " -", 250, backups on, into "D:/music_backup". */
  function DefaultSettings(): (s: Settings)
    ensures s.colonReplacement == " -" && s.maxPathLength == 250
    ensures s.backupEnabled && s.backupPath == "D:/music_backup"
  {
    Settings(" -", 250, true, "D:/music_backup")
  }

  /** Where `_create_backup` copies the folder: `<backup_path>/<folder name>_<timestamp>`. */
  function BackupTarget(cfg: Settings, albumPath: string, stamp: string): string {
    JoinPath(cfg.backupPath, BaseName(albumPath) + "_" + stamp)
  }

  /** `_rename_folder`: no change for an empty name, a safe name equal to
      the current one, an existing target or a too long path; otherwise
      the folder is renamed, or the rename's error is raised. */
  function RenameFolder(albumPath: string, newName: Option<string>, cfg: Settings, env: Env): (s: Step)
    ensures newName.None? || newName.value == [] ==> s == Skip
    ensures newName.Some? && newName.value != [] ==>
              var safe := MakeWindowsSafe(newName.value, cfg.colonReplacement);
              var target := JoinPath(Parent(albumPath), safe);
              var go := safe != BaseName(albumPath) && !env.present(target) && |target| <= cfg.maxPathLength;
              (s.Applied? <==> (go && env.renameError(albumPath, target).None?))
              && (s.Raised? <==> (go && env.renameError(albumPath, target).Some?))
              && (s.Applied? ==> s.change == Made("rename", "folder_name", Some(BaseName(albumPath)), safe, Moved(target)))
  {
    if newName.None? || newName.value == [] then Skip
    else
      var oldName := BaseName(albumPath);
      var safe := MakeWindowsSafe(newName.value, cfg.colonReplacement);
      var target := JoinPath(Parent(albumPath), safe);
      if safe == oldName then Skip
      else if env.present(target) then Skip
      else if |target| > cfg.maxPathLength then Skip
      else if env.renameError(albumPath, target).Some? then
        Raised("Rename failed: " + env.renameError(albumPath, target).value)
      else Applied(Made("rename", "folder_name", Some(oldName), safe, Moved(target)))
  }

  /** A rename moves the folder next to where it was, under its safe name. */
  lemma RenameStaysInParent(albumPath: string, newName: Option<string>, cfg: Settings, env: Env)
    requires RenameFolder(albumPath, newName, cfg, env).Applied?
    ensures var ch := RenameFolder(albumPath, newName, cfg, env).change;
            ch.NewPath().Some? && Parent(ch.NewPath().value) == Parent(albumPath)
            && BaseName(ch.NewPath().value) == ch.newValue && ch.newValue != BaseName(albumPath)
  {
    var safe := MakeWindowsSafe(newName.value, cfg.colonReplacement);
    var target := JoinPath(Parent(albumPath), safe);
    assert RenameFolder(albumPath, newName, cfg, env).change
           == Made("rename", "folder_name", Some(BaseName(albumPath)), safe, Moved(target));
    JoinPathSplits(Parent(albumPath), safe);
  }

  /** For a name without `/`, `parent / name` has that name and that parent. */
  lemma JoinPathSplits(parent: string, name: string)
    requires '/' !in name
    ensures BaseName(JoinPath(parent, name)) == name
    ensures Parent(JoinPath(parent, name)) == parent
  {
    var p := JoinPath(parent, name);
    var k := LastSlash(p);
    if parent == [] {
      assert k == -1;
      assert p[k + 1..] == name;
    } else {
      var s := |p| - |name| - 1;
      assert p[s] == '/';
      assert p[s + 1..] == name;
      assert k == s;
      if parent != "/" {
        assert p[..s] == parent;
      }
    }
  }

  /** `_embed_cover_art`: nothing without a URL; a failed download raises;
      otherwise a change reporting how many files got the cover. */
  function EmbedCover(albumPath: string, url: Option<string>, env: Env): (s: Step)
    ensures url.None? || url.value == [] ==> s == Skip
    ensures url.Some? && url.value != [] ==>
              (s.Raised? <==> env.download(url.value).Err?)
              && (s.Applied? <==> env.download(url.value).Ok?)
              && (s.Applied? ==> s.change.Made? && s.change.NewPath().None? && s.change.field == "cover_art"
                                 && s.change.detail == FromUrl(url.value))
  {
    if url.None? || url.value == [] then Skip
    else match env.download(url.value)
      case Err(e) => Raised("Download failed: " + e)
      case Ok(n) => Applied(Made("cover_art", "cover_art", None,
                                 "embedded in " + NatToString(n) + " files", FromUrl(url.value)))
  }

  /** `_update_genre`: nothing without a genre; per-file failures are
      swallowed, so it never raises. */
  function UpdateGenre(albumPath: string, genre: Option<string>, env: Env): (s: Step)
    ensures genre.None? || genre.value == [] ==> s == Skip
    ensures genre.Some? && genre.value != [] ==>
              s.Applied? && s.change.Made? && s.change.newValue == genre.value && s.change.NewPath().None?
              && s.change.detail == FilesUpdated(env.genreUpdated(albumPath, genre.value))
  {
    if genre.None? || genre.value == [] then Skip
    else Applied(Made("genre", "genre", None, genre.value, FilesUpdated(env.genreUpdated(albumPath, genre.value))))
  }

  /** `_apply_correction`: a title correction renames the folder, a missing
      cover on `cover_art` embeds it, a `genre` field updates the genre;
      anything else changes nothing. */
  function ApplyCorrection(albumPath: string, c: Validator.Correction, cfg: Settings, env: Env): (s: Step)
    ensures (c.kind == Validator.FormattingOnly || c.kind == Validator.TitleMismatch) && c.field == "title" ==>
              s == RenameFolder(albumPath, c.suggested, cfg, env)
    ensures (!(c.field == "title" && (c.kind == Validator.FormattingOnly || c.kind == Validator.TitleMismatch))
             && !(c.kind == Validator.MissingCover && c.field == "cover_art") && c.field != "genre")
            ==> s == Skip
    ensures s.Applied? ==> s.change.Made?
    ensures s.Applied? && s.change.NewPath().Some? ==> c.field == "title"
  {
    if (c.kind == Validator.FormattingOnly || c.kind == Validator.TitleMismatch) && c.field == "title" then
      RenameFolder(albumPath, c.suggested, cfg, env)
    else if c.kind == Validator.MissingCover && c.field == "cover_art" then
      EmbedCover(albumPath, c.suggested, env)
    else if c.field == "genre" then
      UpdateGenre(albumPath, c.suggested, env)
    else Skip
  }

  /** The running state of `apply_fixes`. */
  datatype FixState = FixState(changes: seq<Change>, errors: seq<string>, current: string, newPath: Option<string>)

  /** `change.get('new_path')` is truthy. */
  predicate MovesFolder(ch: Change) { ch.NewPath().Some? && ch.NewPath().value != [] }

  /** One turn of the loop: a change is recorded (and a rename moves the
      current path), an exception adds exactly one error, a skip does nothing. */
  function Advance(st: FixState, c: Validator.Correction, cfg: Settings, env: Env): (r: FixState)
    ensures st.changes <= r.changes && st.errors <= r.errors
    ensures |r.changes| + |r.errors| <= |st.changes| + |st.errors| + 1
    ensures ApplyCorrection(st.current, c, cfg, env).Raised? <==> |r.errors| == |st.errors| + 1
    ensures ApplyCorrection(st.current, c, cfg, env).Applied? <==> |r.changes| == |st.changes| + 1
    ensures r.current != st.current || r.newPath != st.newPath ==> r.newPath == Some(r.current)
  {
    match ApplyCorrection(st.current, c, cfg, env)
    case Skip => st
    case Raised(m) => st.(errors := st.errors + [c.kind.Name() + ": " + m])
    case Applied(ch) =>
      if MovesFolder(ch) then
        st.(changes := st.changes + [ch], current := ch.NewPath().value, newPath := ch.NewPath())
      else st.(changes := st.changes + [ch])
  }

  /** The state after the corrections of the list, applied in order. */
  function Run(st: FixState, cs: seq<Validator.Correction>, cfg: Settings, env: Env): FixState
  {
    if cs == [] then st else Advance(Run(st, cs[..|cs| - 1], cfg, env), cs[|cs| - 1], cfg, env)
  }

  /** `Advance` as a step function, for reasoning about `Run` as a fold. */
  function StepWith(cfg: Settings, env: Env): (FixState, Validator.Correction) -> FixState {
    (st, c) => Advance(st, c, cfg, env)
  }

  function Fold(st: FixState, cs: seq<Validator.Correction>, step: (FixState, Validator.Correction) -> FixState)
    : FixState
  {
    if cs == [] then st else step(Fold(st, cs[..|cs| - 1], step), cs[|cs| - 1])
  }

  lemma {:induction false} RunIsFold(st: FixState, cs: seq<Validator.Correction>, cfg: Settings, env: Env)
    ensures Run(st, cs, cfg, env) == Fold(st, cs, StepWith(cfg, env))
  {
    if cs != [] {
      RunIsFold(st, cs[..|cs| - 1], cfg, env);
    }
  }

  lemma {:induction false} FoldAppend(st: FixState, cs: seq<Validator.Correction>, ds: seq<Validator.Correction>,
                                      step: (FixState, Validator.Correction) -> FixState)
    ensures Fold(st, cs + ds, step) == Fold(Fold(st, cs, step), ds, step)
    decreases |ds|
  {
    if ds == [] {
      assert cs + ds == cs;
    } else {
      assert (cs + ds)[..|cs + ds| - 1] == cs + ds[..|ds| - 1];
      FoldAppend(st, cs, ds[..|ds| - 1], step);
    }
  }

  /** Errors never stop the loop: running a list is running its first part
      and then the rest from where the first part left off. */
  lemma RunAppend(st: FixState, cs: seq<Validator.Correction>, ds: seq<Validator.Correction>, cfg: Settings, env: Env)
    ensures Run(st, cs + ds, cfg, env) == Run(Run(st, cs, cfg, env), ds, cfg, env)
  {
    RunIsFold(st, cs + ds, cfg, env);
    RunIsFold(st, cs, cfg, env);
    RunIsFold(Run(st, cs, cfg, env), ds, cfg, env);
    FoldAppend(st, cs, ds, StepWith(cfg, env));
  }

  /** Every correction produces at most one change or one error, and the
      reported new path is where the folder now is. */
  lemma {:induction false} RunBounds(albumPath: string, cs: seq<Validator.Correction>, cfg: Settings, env: Env)
    ensures var r := Run(FixState([], [], albumPath, None), cs, cfg, env);
            |r.changes| + |r.errors| <= |cs|
            && (r.newPath.None? ==> r.current == albumPath)
            && (r.newPath.Some? ==> r.current == r.newPath.value)
  {
    if cs != [] {
      RunBounds(albumPath, cs[..|cs| - 1], cfg, env);
    }
  }

  /** A correction the fixer does not handle leaves the run as it was. */
  lemma UnknownCorrectionIgnored(st: FixState, c: Validator.Correction, cfg: Settings, env: Env)
    requires c.field != "title" && c.field != "cover_art" && c.field != "genre"
    ensures Advance(st, c, cfg, env) == st
  {
  }

  /** `FixResult`. */
  datatype FixResult = FixResult(albumPath: string, albumId: string, success: bool,
                                 changes: seq<Change>, errors: seq<string>, newPath: Option<string>)

  /** The dry-run changes: one "would_apply" entry per correction. */
  function WouldApply(cs: seq<Validator.Correction>): (r: seq<Change>)
    ensures |r| == |cs|
    ensures forall k :: 0 <= k < |cs| ==> r[k] == Planned(cs[k].kind.Name(), cs[k].field)
  {
    if cs == [] then [] else [Planned(cs[0].kind.Name(), cs[0].field)] + WouldApply(cs[1..])
  }

  /** The dry-run loop of `apply_fixes`: one "would_apply" entry per correction. */
  method PlanFixes(corrections: seq<Validator.Correction>) returns (planned: seq<Change>)
    ensures planned == WouldApply(corrections)
  {
    planned := [];
    for k := 0 to |corrections|
      invariant |planned| == k
      invariant forall j :: 0 <= j < k ==> planned[j] == Planned(corrections[j].kind.Name(), corrections[j].field)
    {
      planned := planned + [Planned(corrections[k].kind.Name(), corrections[k].field)];
    }
  }

  /** `apply_fixes`. In a dry run every correction is reported as
      "would_apply" and nothing else happens. Otherwise the folder is first
      copied to the backup directory when backups are enabled (`stamp` is
      the timestamp of the copy, `backupFails` whether the copy raised; a
      failed copy is only logged), then the corrections run in order
      against the folder's current path; a raised error is recorded and the
      next correction still runs. The result does not depend on
      `backupFails`: a failed backup changes nothing that is applied. */
  method ApplyFixes(albumPath: string, albumId: string, corrections: seq<Validator.Correction>, dryRun: bool,
                    cfg: Settings, env: Env, backupFails: bool, stamp: string)
    returns (r: FixResult, backup: Option<string>)
    ensures backup.Some? <==> !dryRun && cfg.backupEnabled && !backupFails
    ensures backup.Some? ==> backup.value == BackupTarget(cfg, albumPath, stamp)
    ensures dryRun ==> r == FixResult(albumPath, albumId, true, WouldApply(corrections), [], None)
    ensures !dryRun ==>
              var st := Run(FixState([], [], albumPath, None), corrections, cfg, env);
              r == FixResult(albumPath, albumId, st.errors == [], st.changes, st.errors, st.newPath)
  {
    backup := None;
    if dryRun {
      var planned := PlanFixes(corrections);
      return FixResult(albumPath, albumId, true, planned, [], None), backup;
    }
    if cfg.backupEnabled && !backupFails {
      backup := Some(BackupTarget(cfg, albumPath, stamp));
    }
    var changes: seq<Change> := [];
    var errors: seq<string> := [];
    var current := albumPath;
    var newPath: Option<string> := None;
    for k := 0 to |corrections|
      invariant FixState(changes, errors, current, newPath)
                == Run(FixState([], [], albumPath, None), corrections[..k], cfg, env)
    {
      assert corrections[..k + 1][..k] == corrections[..k];
      var c := corrections[k];
      ghost var next := Advance(FixState(changes, errors, current, newPath), c, cfg, env);
      match ApplyCorrection(current, c, cfg, env) {
        case Skip =>
        case Raised(m) =>
          errors := errors + [c.kind.Name() + ": " + m];
        case Applied(ch) =>
          changes := changes + [ch];
          if ch.NewPath().Some? && ch.NewPath().value != [] {
            current := ch.NewPath().value;
            newPath := ch.NewPath();
          }
      }
      assert FixState(changes, errors, current, newPath) == next;
    }
    assert corrections[..|corrections|] == corrections;
    r := FixResult(albumPath, albumId, errors == [], changes, errors, newPath);
  }

  function OptStr(o: Option<string>): Json.Value {
    if o.Some? then Json.Str(o.value) else Json.Null
  }

  /** A change record as the dictionary the fixer builds. */
  function ChangeToDict(c: Change): (d: Json.Obj)
    ensures "type" in d && "field" in d && "status" in d
    ensures d["type"] == Json.Str(c.kind) && d["field"] == Json.Str(c.field)
    ensures c.Planned? ==> d["status"] == Json.Str("would_apply") && d.Keys == {"type", "field", "status"}
    ensures c.Made? ==> d["status"] == Json.Str("applied") && |d.Keys| == 6
    ensures "new_path" in d <==> c.NewPath().Some?
  {
    match c
    case Planned(kind, field) =>
      map["type" := Json.Str(kind), "field" := Json.Str(field), "status" := Json.Str("would_apply")]
    case Made(kind, field, oldValue, newValue, detail) =>
      var common := map["type" := Json.Str(kind), "field" := Json.Str(field), "old_value" := OptStr(oldValue),
                        "new_value" := Json.Str(newValue), "status" := Json.Str("applied")];
      match detail
      case Moved(p) => common["new_path" := Json.Str(p)]
      case FromUrl(u) => common["source_url" := Json.Str(u)]
      case FilesUpdated(n) => common["files_updated" := Json.Int(n)]
  }

  function ChangesToList(cs: seq<Change>): (vs: seq<Json.Value>)
    ensures |vs| == |cs|
    ensures forall k :: 0 <= k < |cs| ==> vs[k] == Json.Object(ChangeToDict(cs[k]))
  {
    if cs == [] then [] else [Json.Object(ChangeToDict(cs[0]))] + ChangesToList(cs[1..])
  }

  function StrList(ss: seq<string>): (vs: seq<Json.Value>)
    ensures |vs| == |ss|
    ensures forall k :: 0 <= k < |ss| ==> vs[k] == Json.Str(ss[k])
  {
    if ss == [] then [] else [Json.Str(ss[0])] + StrList(ss[1..])
  }

  /** `FixResult.to_dict`. */
  function ResultToDict(r: FixResult): (d: Json.Obj)
    ensures d.Keys == {"album_path", "album_id", "success", "changes_made", "errors", "new_path"}
    ensures d["success"] == Json.Bool(r.success)
    ensures d["changes_made"].List? && |d["changes_made"].items| == |r.changes|
    ensures d["errors"].List? && |d["errors"].items| == |r.errors|
    ensures d["new_path"] == Json.Null <==> r.newPath.None?
  {
    map["album_path" := Json.Str(r.albumPath), "album_id" := Json.Str(r.albumId),
        "success" := Json.Bool(r.success), "changes_made" := Json.List(ChangesToList(r.changes)),
        "errors" := Json.List(StrList(r.errors)), "new_path" := OptStr(r.newPath)]
  }

  /** A queue item as the fixer reads it; an empty path stands for a missing one. */
  datatype FixItem = FixItem(path: string, corrections: seq<Validator.Correction>, dryRun: bool)

  /** What `process` returns. */
  datatype FixOutcome =
    | FixError(error: string)
    | FixSkipped(reason: string)
    | FixDone(success: bool, path: string, changesMade: nat, errorCount: nat, data: FixResult)
  {
    function Status(): string {
      match this
      case FixError(_) => "error"
      case FixSkipped(_) => "skipped"
      case FixDone(success, _, _, _, _) => if success then "success" else "partial"
    }
  }

  /** `process`: no path is an error, no corrections is a skip; otherwise
      the fixes are applied (a dry run too), the result is saved as phase
      "FIXED" or "FIX_FAILED", and the outcome is "success" or "partial"
      with the folder's final path. */
  method Process(store: State.StateStore, item: FixItem, cfg: Settings, env: Env, now: string,
                 backupFails: bool, stamp: string)
    returns (out: FixOutcome)
    requires State.DigestOk(store.digest)
    modifies store`albums
    ensures item.path == [] ==> out == FixError("No path provided")
    ensures item.path != [] && item.corrections == [] ==> out == FixSkipped("No corrections to apply")
    ensures item.path == [] || item.corrections == [] ==> store.albums == old(store.albums)
    ensures item.path != [] && item.corrections != [] ==>
              out.FixDone? && out.data.albumId == State.AlbumId(store.digest, item.path)
              && out.data.albumPath == item.path
              && out.changesMade == |out.data.changes| && out.errorCount == |out.data.errors|
              && (out.success <==> out.data.errors == [])
              && out.path == (if out.data.newPath.Some? && out.data.newPath.value != [] then out.data.newPath.value
                              else item.path)
              && (item.dryRun ==> out.success && out.data.changes == WouldApply(item.corrections))
              && (!item.dryRun ==>
                    var st := Run(FixState([], [], item.path, None), item.corrections, cfg, env);
                    out.data.changes == st.changes && out.data.errors == st.errors && out.data.newPath == st.newPath)
              && var id := State.AlbumId(store.digest, item.path);
                 store.albums == old(store.albums)[id := State.SavedRecord(old(store.GetAlbumState(item.path)), id,
                     item.path, if out.success then "FIXED" else "FIX_FAILED", ResultToDict(out.data), now)]
  {
    if item.path == [] {
      return FixError("No path provided");
    }
    if item.corrections == [] {
      return FixSkipped("No corrections to apply");
    }
    var r, _ := ApplyFixes(item.path, State.AlbumId(store.digest, item.path), item.corrections, item.dryRun,
                           cfg, env, backupFails, stamp);
    store.SaveAlbumState(item.path, if r.success then "FIXED" else "FIX_FAILED", ResultToDict(r), now);
    var path := if r.newPath.Some? && r.newPath.value != [] then r.newPath.value else item.path;
    out := FixDone(r.success, path, |r.changes|, |r.errors|, r);
  }

  // ------------------------------------------------ sync filenames

  /** The tags read from one audio file. */
  datatype Tags =
    | Unreadable(message: string)                              // reading raised
    | Vorbis(title: Option<string>, trackTag: Option<string>)  // mp3 (EasyID3) and flac
    | Mp4(title: Option<string>, trackNumber: Option<int>)     // m4a: `©nam` and the first of `trkn`
    | Untagged                                                 // ogg and wav: nothing is read

  /** An audio file: its name, its lower-cased suffix and its tags. */
  datatype AudioFile = AudioFile(name: string, ext: string, tags: Tags)

  /** The title read from a file. */
  function TitleOf(f: AudioFile): Option<string> {
    match f.tags
    case Vorbis(title, _) => title
    case Mp4(title, _) => title
    case _ => None
  }

  /** The track text read from a file: the part of the track tag before
      `/`, or the `trkn` number when it is not zero. */
  function TrackTextOf(f: AudioFile): (t: string)
    ensures '/' !in t || f.tags.Mp4?
  {
    match f.tags
    case Vorbis(_, trackTag) => BeforeFirst(trackTag.GetOr(""), '/')
    case Mp4(_, n) => if n.Some? && n.value != 0 then IntToString(n.value) else ""
    case _ => ""
  }

  /** The file name `sync_filenames_to_titles` wants: the track number
      padded to two digits ("00" when there is none), a blank, the safe
      title and the suffix. None when the file has no title. */
  function WantedName(f: AudioFile): (r: Option<string>)
    ensures r.None? <==> TitleOf(f).None? || TitleOf(f).value == []
    ensures r.Some? ==>
              var track := TrackTextOf(f);
              var t := if track == [] then "00" else ZFill(track, 2);
              r.value == t + " " + MakeFilenameSafe(TitleOf(f).value) + f.ext && |t| >= 2
  {
    var title := TitleOf(f);
    if title.None? || title.value == [] then None
    else
      var track := TrackTextOf(f);
      var t := if track != [] then ZFill(track, 2) else "00";
      Some(t + " " + MakeFilenameSafe(title.value) + f.ext)
  }

  /** A two-digit track number and a title give "NN Title.ext". */
  lemma WantedNameOfTrack(title: string, track: nat, ext: string)
    requires title != [] && 1 <= track <= 9
    ensures WantedName(AudioFile("", ext, Vorbis(Some(title), Some(NatToString(track)))))
            == Some("0" + NatToString(track) + " " + MakeFilenameSafe(title) + ext)
  {
    var s := NatToString(track);
    var f := AudioFile("", ext, Vorbis(Some(title), Some(s)));
    assert s == [DigitChar(track)];
    assert BeforeFirst(s, '/') == s;
    assert TrackTextOf(f) == s;
    assert ZFill(s, 2) == "0" + s;
  }

  /** The counters and the directory listing while renaming. */
  datatype SyncState = SyncState(renamed: nat, skipped: nat, errors: seq<string>,
                                 changes: seq<(string, string)>, names: set<string>)

  /** One file, in the loop's order of checks: an unreadable file is an
      error, a file without a title or already named right is skipped, a
      taken name is an error, a failed rename is an error, otherwise the
      file is renamed and the listing updated. */
  function SyncOne(st: SyncState, f: AudioFile, renameError: (string, string) -> Option<string>): (r: SyncState)
    ensures r.renamed + r.skipped + |r.errors| == st.renamed + st.skipped + |st.errors| + 1
    ensures r.renamed == st.renamed || r.renamed == st.renamed + 1
    ensures r.renamed == st.renamed + 1 ==>
              WantedName(f).Some? &&
              r.changes == st.changes + [(f.name, WantedName(f).value)]
              && f.name != WantedName(f).value && WantedName(f).value !in st.names
              && r.names == st.names - {f.name} + {WantedName(f).value}
    ensures r.renamed == st.renamed ==> r.changes == st.changes && r.names == st.names
  {
    if f.tags.Unreadable? then st.(errors := st.errors + [f.name + ": " + f.tags.message])
    else
      var wanted := WantedName(f);
      if wanted.None? || wanted.value == f.name then st.(skipped := st.skipped + 1)
      else if wanted.value in st.names then st.(errors := st.errors + ["Target exists: " + wanted.value])
      else if renameError(f.name, wanted.value).Some? then
        st.(errors := st.errors + [f.name + ": " + renameError(f.name, wanted.value).value])
      else st.(renamed := st.renamed + 1, changes := st.changes + [(f.name, wanted.value)],
               names := st.names - {f.name} + {wanted.value})
  }

  function SyncRun(st: SyncState, fs: seq<AudioFile>, renameError: (string, string) -> Option<string>): SyncState
  {
    if fs == [] then st else SyncOne(SyncRun(st, fs[..|fs| - 1], renameError), fs[|fs| - 1], renameError)
  }

  /** Every file is counted exactly once: renamed, skipped or an error; and
      every rename is recorded. */
  lemma {:induction false} SyncCounts(names: set<string>, fs: seq<AudioFile>, renameError: (string, string) -> Option<string>)
    ensures var r := SyncRun(SyncState(0, 0, [], [], names), fs, renameError);
            r.renamed + r.skipped + |r.errors| == |fs| && |r.changes| == r.renamed
  {
    if fs != [] {
      SyncCounts(names, fs[..|fs| - 1], renameError);
    }
  }

  predicate NamesChange(changes: seq<(string, string)>) {
    forall k :: 0 <= k < |changes| ==> changes[k].1 != changes[k].0
  }

  /** A recorded rename always changes the file's name. */
  lemma {:induction false} SyncRenamesChangeName(names: set<string>, fs: seq<AudioFile>, renameError: (string, string) -> Option<string>)
    ensures NamesChange(SyncRun(SyncState(0, 0, [], [], names), fs, renameError).changes)
  {
    if fs != [] {
      var prev := SyncRun(SyncState(0, 0, [], [], names), fs[..|fs| - 1], renameError);
      SyncRenamesChangeName(names, fs[..|fs| - 1], renameError);
      var r := SyncOne(prev, fs[|fs| - 1], renameError);
      forall k | 0 <= k < |r.changes| ensures r.changes[k].1 != r.changes[k].0 {
        if r.renamed == prev.renamed {
          assert r.changes == prev.changes;
          assert r.changes[k] == prev.changes[k];
          assert prev.changes[k].1 != prev.changes[k].0;
        } else {
          var f := fs[|fs| - 1];
          assert r.changes == prev.changes + [(f.name, WantedName(f).value)];
          if k < |prev.changes| {
            assert r.changes[k] == prev.changes[k];
            assert prev.changes[k].1 != prev.changes[k].0;
          } else {
            assert r.changes[k] == (f.name, WantedName(f).value);
            assert f.name != WantedName(f).value;
          }
        }
      }
    }
  }

  /** `sync_filenames_to_titles` over the album's audio files in sorted
      order; `names` is the folder's listing, which each rename updates. */
  method SyncFilenames(files: seq<AudioFile>, names: set<string>, renameError: (string, string) -> Option<string>)
    returns (r: SyncState)
    ensures r == SyncRun(SyncState(0, 0, [], [], names), files, renameError)
    ensures r.renamed + r.skipped + |r.errors| == |files|
  {
    var start := SyncState(0, 0, [], [], names);
    r := start;
    for k := 0 to |files|
      invariant r == SyncRun(start, files[..k], renameError)
    {
      assert SyncRun(start, files[..k + 1], renameError) == SyncOne(r, files[k], renameError) by {
        assert files[..k + 1][..k] == files[..k];
        assert files[..k + 1][k] == files[k];
      }
      r := SyncOne(r, files[k], renameError);
    }
    assert files[..|files|] == files;
    SyncCounts(names, files, renameError);
  }
}
