/** The programmatic pipeline driver: `scan_album` enqueues what the
    scanner found, `validate` moves every SCANNED album by its validation
    verdict, `approve`/`reject` set a status by id, and `fix` applies the
    corrections of the ready albums. The validator's and fixer's `process`
    are parameters (`validate` and `fix`), as in the command-line handlers;
    the scanner's `process` is called with the folder listing, the cover
    test and the tag reader as parameters. Progress callbacks are not
    modelled. */
module Orchestrator {
  import opened Wrappers
  import opened Text
  import Json
  import Queue
  import State
  import Validator
  import Fixer
  import Scanner
  import opened Transitions

  /** The audio extensions `_has_audio` recognises (fewer than the command
      line's). */
  const AudioExtensions: set<string> := {".mp3", ".flac", ".m4a", ".mp4", ".ogg", ".wav"}

  // ------------------------------------------------------------ enqueue

  /** The priority of a scanned album: HIGH when the scan found issues. */
  function ScanPriority(issueCount: nat): (p: Queue.Priority)
    ensures p == Queue.High <==> issueCount > 0
    ensures p == Queue.Normal <==> issueCount == 0
  {
    if issueCount > 0 then Queue.High else Queue.Normal
  }

  /** The queue metadata `scan_album` stores: the album's title and
      artist (as `to_dict` gives them), track count and cover flag. */
  function ScanMetadata(out: Scanner.ScanOutcome): (m: Json.Obj)
    requires out.Scanned?
    ensures m.Keys == {"title", "artist", "track_count", "has_cover"}
    ensures m["title"] == Json.Str(Scanner.Title(out.data))
    ensures m["artist"] == Scanner.OptText(Scanner.Artist(out.data))
    ensures m["track_count"] == Json.Int(out.trackCount) && m["has_cover"] == Json.Bool(out.hasCover)
  {
    var d := Scanner.AlbumToDict(out.data);
    map["title" := Json.Get(d, "title", Json.Null), "artist" := Json.Get(d, "artist", Json.Null),
        "track_count" := Json.Int(out.trackCount), "has_cover" := Json.Bool(out.hasCover)]
  }

  // ----------------------------------------------------------- validate

  /** `validate`'s rule for one outcome: auto-approved albums wait for the
      fixer whatever their corrections, review and not-found verdicts go to
      NEEDS_REVIEW; a rejected (or pending) verdict and an error leave the
      item SCANNED. */
  function ValidateMove(o: Validator.Outcome): (m: Move)
    ensures m.MoveTo? <==> o.Validated? && o.verdict in {Validator.AutoApproved, Validator.NeedsReview, Validator.NotFound}
    ensures m.MoveTo? && o.verdict == Validator.AutoApproved ==>
              m.status == Queue.Validated && m.patch.Keys == {"validation", "confidence"}
    ensures m.MoveTo? && o.verdict == Validator.NeedsReview ==>
              m.status == Queue.NeedsReview && m.patch.Keys == {"validation", "confidence"}
    ensures m.MoveTo? && o.verdict == Validator.NotFound ==>
              m.status == Queue.NeedsReview && m.patch.Keys == {"validation", "not_found"}
              && m.patch["not_found"] == Json.Bool(true)
    ensures m.MoveTo? ==> m.patch["validation"] == Json.Object(Validator.ResultToDict(o.data))
    ensures m.MoveTo? && "confidence" in m.patch ==> m.patch["confidence"] == Json.Real(o.confidence)
  {
    match o
    case Failed(_) => Stay
    case Validated(_, verdict, confidence, _, _, data) =>
      var d := Json.Object(Validator.ResultToDict(data));
      match verdict
      case AutoApproved => MoveTo(Queue.Validated, map["validation" := d, "confidence" := Json.Real(confidence)])
      case NeedsReview => MoveTo(Queue.NeedsReview, map["validation" := d, "confidence" := Json.Real(confidence)])
      case NotFound => MoveTo(Queue.NeedsReview, map["validation" := d, "not_found" := Json.Bool(true)])
      case Rejected => Stay
      case Pending => Stay
  }

  /** Which counters an outcome bumps: every successful validation bumps
      `validated`, and the three moving verdicts their own counter too. */
  datatype ValidateBucket = Approved | Review | Missing | Kept | Error

  function ValidateBucketOf(o: Validator.Outcome): ValidateBucket {
    match o
    case Failed(_) => Error
    case Validated(_, verdict, _, _, _, _) =>
      match verdict
      case AutoApproved => Approved
      case NeedsReview => Review
      case NotFound => Missing
      case Rejected => Kept
      case Pending => Kept
  }

  function ValidateMoves(validate: Validator.Item -> Validator.Outcome): Queue.Item -> Move {
    x => ValidateMove(validate(ValidationInput(x)))
  }

  function ValidateCounts(validate: Validator.Item -> Validator.Outcome): Queue.Item -> ValidateBucket {
    x => ValidateBucketOf(validate(ValidationInput(x)))
  }

  /** An entry of a summary's `errors` list: the album folder's name and
      the agent's `error` (null when it gave none). */
  datatype AlbumError = AlbumError(album: string, error: Json.Value)

  /** The error `validate` lists for one item: one entry when its
      validation failed. */
  function ValidateErrorOf(x: Queue.Item, validate: Validator.Item -> Validator.Outcome): (es: seq<AlbumError>)
    ensures |es| == if ValidateCounts(validate)(x) == Error then 1 else 0
    ensures es != [] ==> es[0].album == Fixer.BaseName(x.entry.path)
                         && es[0].error == Json.Str(validate(ValidationInput(x)).error)
  {
    var o := validate(ValidationInput(x));
    if o.Failed? then [AlbumError(Fixer.BaseName(x.entry.path), Json.Str(o.error))] else []
  }

  /** The errors `validate` lists, one per failed validation, in order. */
  function ValidateErrors(items: seq<Queue.Item>, validate: Validator.Item -> Validator.Outcome): (es: seq<AlbumError>)
    ensures |es| == Count(items, ValidateCounts(validate), Error)
  {
    if items == [] then []
    else ValidateErrors(items[..|items| - 1], validate) + ValidateErrorOf(items[|items| - 1], validate)
  }

  datatype ValidateReport =
    | NothingToValidate
    | ValidateSummary(validated: nat, autoApproved: nat, needsReview: nat, notFound: nat, errors: seq<AlbumError>)

  /** The summary after one more item. */
  function Bump(r: ValidateReport, x: Queue.Item, validate: Validator.Item -> Validator.Outcome): (r': ValidateReport)
    requires r.ValidateSummary?
    ensures r'.ValidateSummary? && r'.errors == r.errors + ValidateErrorOf(x, validate)
  {
    var es := r.errors + ValidateErrorOf(x, validate);
    match ValidateBucketOf(validate(ValidationInput(x)))
    case Approved => r.(validated := r.validated + 1, autoApproved := r.autoApproved + 1, errors := es)
    case Review => r.(validated := r.validated + 1, needsReview := r.needsReview + 1, errors := es)
    case Missing => r.(validated := r.validated + 1, notFound := r.notFound + 1, errors := es)
    case Kept => r.(validated := r.validated + 1, errors := es)
    case Error => r.(errors := es)
  }

  /** The summary after the outcomes of `items`. */
  function Tallies(items: seq<Queue.Item>, validate: Validator.Item -> Validator.Outcome): (r: ValidateReport)
    ensures r.ValidateSummary? && r.errors == ValidateErrors(items, validate)
  {
    if items == [] then ValidateSummary(0, 0, 0, 0, [])
    else Bump(Tallies(items[..|items| - 1], validate), items[|items| - 1], validate)
  }

  lemma TalliesStep(items: seq<Queue.Item>, validate: Validator.Item -> Validator.Outcome, k: nat)
    requires k < |items|
    ensures Tallies(items[..k + 1], validate) == Bump(Tallies(items[..k], validate), items[k], validate)
  {
    assert items[..k + 1][..k] == items[..k];
  }

  /** Each counter of the summary counts its outcomes; `validated` counts
      every outcome that is not an error. */
  lemma {:induction false} TalliesCount(items: seq<Queue.Item>, validate: Validator.Item -> Validator.Outcome)
    ensures var r := Tallies(items, validate);
            var counts := ValidateCounts(validate);
            r.autoApproved == Count(items, counts, Approved)
            && r.needsReview == Count(items, counts, Review)
            && r.notFound == Count(items, counts, Missing)
            && r.validated == |items| - Count(items, counts, Error)
  {
    if items != [] {
      TalliesCount(items[..|items| - 1], validate);
      BumpCounters(Tallies(items[..|items| - 1], validate), items[|items| - 1], validate);
    }
  }

  /** One more item moves exactly the counter of its outcome. */
  lemma BumpCounters(r: ValidateReport, x: Queue.Item, validate: Validator.Item -> Validator.Outcome)
    requires r.ValidateSummary?
    ensures var r' := Bump(r, x, validate);
            var b := ValidateCounts(validate)(x);
            r'.autoApproved == r.autoApproved + (if b == Approved then 1 else 0)
            && r'.needsReview == r.needsReview + (if b == Review then 1 else 0)
            && r'.notFound == r.notFound + (if b == Missing then 1 else 0)
            && r'.validated == r.validated + (if b == Error then 0 else 1)
  {
    assert ValidateCounts(validate)(x) == ValidateBucketOf(validate(ValidationInput(x)));
  }

  /** A validated album is counted on at most one of the three verdict
      counters, so they never exceed `validated`. */
  lemma {:induction false} VerdictsWithinValidated(items: seq<Queue.Item>, validate: Validator.Item -> Validator.Outcome)
    ensures var r := Tallies(items, validate);
            r.autoApproved + r.needsReview + r.notFound <= r.validated
  {
    if items != [] {
      VerdictsWithinValidated(items[..|items| - 1], validate);
    }
  }

  /** Where `validate` leaves each SCANNED album. */
  lemma ValidateStatuses(entries: map<string, Queue.Entry>, pending: seq<Queue.Item>,
                         validate: Validator.Item -> Validator.Outcome, now: string)
    requires forall x :: x in pending ==> x.id in entries && entries[x.id] == x.entry
    ensures var after := ApplyMoves(entries, pending, ValidateMoves(validate), now);
            forall x :: x in pending ==>
              var o := validate(ValidationInput(x));
              (o.Failed? || o.verdict in {Validator.Rejected, Validator.Pending} ==> after[x.id] == x.entry)
              && (o.Validated? && o.verdict == Validator.AutoApproved
                  ==> after[x.id].status == Queue.AlbumStatus.Validated.Name())
              && (o.Validated? && o.verdict in {Validator.NeedsReview, Validator.NotFound}
                  ==> after[x.id].status == Queue.AlbumStatus.NeedsReview.Name())
    ensures var after := ApplyMoves(entries, pending, ValidateMoves(validate), now);
            forall id :: id in entries && (forall x :: x in pending ==> x.id != id) ==> after[id] == entries[id]
  {
    ApplyMovesEffect(entries, pending, ValidateMoves(validate), now);
  }

  // ---------------------------------------------------------------- fix

  /** `fix`'s selection: the ready items whose id is `albumId` or starts
      with it; an empty `albumId` selects everything. */
  function FixSelection(ready: seq<Queue.Item>, albumId: string): (r: seq<Queue.Item>)
    ensures albumId != [] ==> forall x :: x in r <==> x in ready && (x.id == albumId || StartsWith(x.id, albumId))
    ensures albumId == [] ==> r == ready
  {
    if albumId == [] || ready == [] then ready
    else
      var x := ready[|ready| - 1];
      FixSelection(ready[..|ready| - 1], albumId) + (if x.id == albumId || StartsWith(x.id, albumId) then [x] else [])
  }

  lemma FixSelectionStep(ready: seq<Queue.Item>, albumId: string, i: nat)
    requires albumId != [] && i < |ready|
    ensures FixSelection(ready[..i + 1], albumId)
            == FixSelection(ready[..i], albumId)
               + (if ready[i].id == albumId || StartsWith(ready[i].id, albumId) then [ready[i]] else [])
  {
    assert ready[..i + 1][..i] == ready[..i];
  }

  /** The equality test adds nothing to the prefix test: `fix` selects what
      the command line's `--album` selects. */
  lemma {:induction false} FixSelectionIsPrefix(ready: seq<Queue.Item>, albumId: string)
    requires albumId != []
    ensures FixSelection(ready, albumId) == SelectByPrefix(ready, albumId)
  {
    if ready != [] {
      var x := ready[|ready| - 1];
      FixSelectionIsPrefix(ready[..|ready| - 1], albumId);
      if x.id == albumId {
        assert x.id[..|albumId|] == albumId;
      }
    }
  }

  /** `fix`'s rule for one item: no corrections means VERIFIED (even in a
      dry run); a successful or partial fix means FIXED, but only for real;
      any other outcome leaves the item alone. */
  function FixMove(x: Queue.Item, o: Fixer.FixOutcome, dryRun: bool): (m: Move)
    ensures !HasCorrections(x) ==> m == MoveTo(Queue.Verified, map[])
    ensures HasCorrections(x) ==> (m.MoveTo? <==> o.FixDone? && !dryRun)
    ensures m.MoveTo? && HasCorrections(x) ==>
              m == MoveTo(Queue.Fixed, map["fix_result" := Json.Object(Fixer.ResultToDict(o.data))])
  {
    if !HasCorrections(x) then MoveTo(Queue.Verified, map[])
    else if o.FixDone? && !dryRun then MoveTo(Queue.Fixed, map["fix_result" := Json.Object(Fixer.ResultToDict(o.data))])
    else Stay
  }

  datatype FixBucket = NoCorrections | Repaired | NotRepaired

  function FixBucketOf(x: Queue.Item, o: Fixer.FixOutcome): FixBucket {
    if !HasCorrections(x) then NoCorrections else if o.FixDone? then Repaired else NotRepaired
  }

  function FixMoves(fix: Queue.Item -> Fixer.FixOutcome, dryRun: bool): Queue.Item -> Move {
    x => FixMove(x, fix(x), dryRun)
  }

  function FixCounts(fix: Queue.Item -> Fixer.FixOutcome): Queue.Item -> FixBucket {
    x => FixBucketOf(x, fix(x))
  }

  /** `result.get('error')`: only a failed fix carries one. */
  function FixErrorValue(o: Fixer.FixOutcome): Json.Value {
    if o.FixError? then Json.Str(o.error) else Json.Null
  }

  datatype FixReport =
    | NothingToFix
    | FixSummary(fixed: nat, changes: nat, errors: seq<AlbumError>, dryRun: bool)

  /** The summary after one more item: a successful or partial fix bumps
      `fixed` and adds its changes; a fix that neither succeeded nor was
      skipped for lack of corrections is listed as an error. */
  function FixBump(r: FixReport, x: Queue.Item, fix: Queue.Item -> Fixer.FixOutcome): (r': FixReport)
    requires r.FixSummary?
    ensures r'.FixSummary? && r'.dryRun == r.dryRun
  {
    match FixBucketOf(x, fix(x))
    case NoCorrections => r
    case Repaired => r.(fixed := r.fixed + 1, changes := r.changes + fix(x).changesMade)
    case NotRepaired => r.(errors := r.errors + [AlbumError(Fixer.BaseName(x.entry.path), FixErrorValue(fix(x)))])
  }

  function FixTallies(items: seq<Queue.Item>, fix: Queue.Item -> Fixer.FixOutcome, dryRun: bool): (r: FixReport)
    ensures r.FixSummary? && r.dryRun == dryRun
  {
    if items == [] then FixSummary(0, 0, [], dryRun)
    else FixBump(FixTallies(items[..|items| - 1], fix, dryRun), items[|items| - 1], fix)
  }

  lemma FixTalliesStep(items: seq<Queue.Item>, fix: Queue.Item -> Fixer.FixOutcome, dryRun: bool, k: nat)
    requires k < |items|
    ensures FixTallies(items[..k + 1], fix, dryRun) == FixBump(FixTallies(items[..k], fix, dryRun), items[k], fix)
  {
    assert items[..k + 1][..k] == items[..k];
  }

  /** `fixed` counts the successful and partial fixes, `errors` lists the
      other items that had corrections, and together with the items
      without corrections they account for every selected item. */
  lemma {:induction false} FixTalliesCount(items: seq<Queue.Item>, fix: Queue.Item -> Fixer.FixOutcome, dryRun: bool)
    ensures var r := FixTallies(items, fix, dryRun);
            var counts := FixCounts(fix);
            r.fixed == Count(items, counts, Repaired)
            && |r.errors| == Count(items, counts, NotRepaired)
            && r.fixed + |r.errors| + Count(items, counts, NoCorrections) == |items|
  {
    if items != [] {
      var last := items[|items| - 1];
      FixTalliesCount(items[..|items| - 1], fix, dryRun);
      assert FixCounts(fix)(last) == FixBucketOf(last, fix(last));
    }
  }

  /** Where `fix` leaves each selected album. */
  lemma FixStatuses(entries: map<string, Queue.Entry>, ready: seq<Queue.Item>,
                    fix: Queue.Item -> Fixer.FixOutcome, dryRun: bool, now: string)
    requires forall x :: x in ready ==> x.id in entries && entries[x.id] == x.entry
    ensures var after := ApplyMoves(entries, ready, FixMoves(fix, dryRun), now);
            forall x :: x in ready ==>
              (!HasCorrections(x) ==> after[x.id].status == Queue.AlbumStatus.Verified.Name())
              && (HasCorrections(x) && fix(x).FixDone? && !dryRun ==> after[x.id].status == Queue.AlbumStatus.Fixed.Name())
              && (HasCorrections(x) && (dryRun || !fix(x).FixDone?) ==> after[x.id] == x.entry)
  {
    ApplyMovesEffect(entries, ready, FixMoves(fix, dryRun), now);
  }

  // -------------------------------------------------------- the driver

  class MusicLibraryOrchestrator {
    const state: State.StateStore
    const queue: Queue.QueueManager

    constructor (state: State.StateStore, queue: Queue.QueueManager)
      ensures this.state == state && this.queue == queue
    {
      this.state := state;
      this.queue := queue;
    }

    /** `scan_album`: the scanner's `process` on the folder; a successful
        scan is enqueued (or re-enqueued) as SCANNED with the scan's id,
        HIGH priority when it found issues, and its summary as metadata. A
        failed scan leaves the queue alone. */
    method ScanAlbum(albumPath: string, listing: Result<seq<Scanner.DirEntry>, string>, inFolder: string -> bool,
                     sortPaths: seq<string> -> seq<string>, read: string -> Scanner.TagRead, now: string)
      returns (out: Scanner.ScanOutcome)
      requires queue.Valid() && State.DigestOk(state.digest)
      modifies queue, state`albums
      ensures queue.Valid()
      ensures albumPath == [] ==> out == Scanner.ScanFailed("No path provided")
      ensures albumPath != [] && listing.Err? ==> out == Scanner.ScanFailed(listing.error)
      ensures albumPath != [] && listing.Ok? ==> out.Scanned?
      ensures out.ScanFailed? ==> queue.entries == old(queue.entries) && queue.order == old(queue.order)
      ensures out.ScanFailed? ==> state.albums == old(state.albums)
      ensures out.Scanned? ==>
                state.albums == old(state.albums)[out.albumId := State.SavedRecord(old(state.GetAlbumState(albumPath)),
                                  out.albumId, albumPath, "SCANNED", Scanner.AlbumToDict(out.data), now)]
      ensures out.Scanned? ==>
                out.albumId == State.AlbumId(state.digest, albumPath)
                && queue.entries == old(queue.entries)[out.albumId :=
                     Queue.Entry(albumPath, Queue.AlbumStatus.Scanned.Name(), ScanPriority(out.issueCount).Value(), now, now,
                                 ScanMetadata(out))]
      ensures out.Scanned? ==>
                queue.order == if out.albumId in old(queue.entries) then old(queue.order) else old(queue.order) + [out.albumId]
    {
      out := Scanner.Process(state, albumPath, listing, inFolder, sortPaths, read, now);
      if out.Scanned? {
        queue.Add(out.albumId, albumPath, Queue.Scanned, ScanPriority(out.issueCount), Some(ScanMetadata(out)), now);
      }
    }

    /** `validate`: every SCANNED album (by priority) is validated and
        moved by `ValidateMove`; without SCANNED albums nothing changes. */
    method Validate(validate: Validator.Item -> Validator.Outcome, now: string)
      returns (r: ValidateReport, ghost pending: seq<Queue.Item>)
      requires queue.Valid()
      modifies queue
      ensures pending == old(queue.GetByStatus(Queue.Scanned))
      ensures queue.Valid() && queue.order == old(queue.order)
      ensures r.NothingToValidate? <==> pending == []
      ensures queue.entries == ApplyMoves(old(queue.entries), pending, ValidateMoves(validate), now)
      ensures r.ValidateSummary? ==> r == Tallies(pending, validate)
    {
      var scanned := queue.GetByStatus(Queue.Scanned);
      pending := scanned;
      if scanned == [] {
        return NothingToValidate, pending;
      }
      r := ValidatePass(scanned, validate, now);
    }

    /** One album of a pass: `update_status` when the move is not Stay. */
    method ApplyMove(x: Queue.Item, m: Move, now: string)
      requires queue.Valid()
      modifies queue
      ensures queue.Valid() && queue.order == old(queue.order)
      ensures queue.entries == Step(old(queue.entries), x, _ => m, now)
    {
      if m.MoveTo? {
        var _ := queue.UpdateStatus(x.id, m.status, m.patch, now);
      }
    }

    /** `validate`'s loop over the SCANNED albums `pending`, in order. */
    method ValidatePass(pending: seq<Queue.Item>, validate: Validator.Item -> Validator.Outcome, now: string)
      returns (r: ValidateReport)
      requires queue.Valid()
      modifies queue
      ensures queue.Valid() && queue.order == old(queue.order)
      ensures queue.entries == ApplyMoves(old(queue.entries), pending, ValidateMoves(validate), now)
      ensures r == Tallies(pending, validate)
    {
      ghost var entries0 := queue.entries;
      ghost var moves := ValidateMoves(validate);
      r := ValidateSummary(0, 0, 0, 0, []);
      for k := 0 to |pending|
        invariant queue.Valid() && queue.order == old(queue.order)
        invariant queue.entries == ApplyMoves(entries0, pending[..k], moves, now)
        invariant r == Tallies(pending[..k], validate)
      {
        ApplyMovesStep(entries0, pending, moves, now, k);
        TalliesStep(pending, validate, k);
        var x := pending[k];
        var o := validate(ValidationInput(x));
        ApplyMove(x, ValidateMove(o), now);
        r := Bump(r, x, validate);
      }
      assert pending[..|pending|] == pending;
    }

    /** `approve`: APPROVED, and false for an unknown id. */
    method Approve(albumId: string, now: string) returns (ok: bool)
      requires queue.Valid()
      modifies queue
      ensures queue.Valid() && queue.order == old(queue.order)
      ensures ok <==> albumId in old(queue.entries)
      ensures ok ==> queue.entries == old(queue.entries)[albumId := Moved(old(queue.entries)[albumId],
                                                                     MoveTo(Queue.Approved, map[]), now)]
      ensures !ok ==> queue.entries == old(queue.entries)
    {
      ok := queue.UpdateStatus(albumId, Queue.Approved, map[], now);
    }

    /** `reject`: REJECTED, and false for an unknown id. */
    method Reject(albumId: string, now: string) returns (ok: bool)
      requires queue.Valid()
      modifies queue
      ensures queue.Valid() && queue.order == old(queue.order)
      ensures ok <==> albumId in old(queue.entries)
      ensures ok ==> queue.entries == old(queue.entries)[albumId := Moved(old(queue.entries)[albumId],
                                                                     MoveTo(Queue.Rejected, map[]), now)]
      ensures !ok ==> queue.entries == old(queue.entries)
    {
      ok := queue.UpdateStatus(albumId, Queue.Rejected, map[], now);
    }

    /** `fix`: the ready albums (VALIDATED, then APPROVED), narrowed by
        `albumId`, are fixed one by one and moved by `FixMove`. */
    method Fix(fix: Queue.Item -> Fixer.FixOutcome, dryRun: bool, albumId: string, now: string)
      returns (r: FixReport, ghost ready: seq<Queue.Item>)
      requires queue.Valid()
      modifies queue
      ensures ready == FixSelection(old(queue.GetReadyToFix()), albumId)
      ensures queue.Valid() && queue.order == old(queue.order)
      ensures r.NothingToFix? <==> ready == []
      ensures queue.entries == ApplyMoves(old(queue.entries), ready, FixMoves(fix, dryRun), now)
      ensures r.FixSummary? ==> r == FixTallies(ready, fix, dryRun)
    {
      var selected := queue.GetReadyToFix();
      if albumId != [] {
        selected := FilterSelection(selected, albumId);
      }
      ready := selected;
      if selected == [] {
        return NothingToFix, ready;
      }
      r := FixPass(selected, fix, dryRun, now);
    }

    /** The list comprehension that narrows the ready list. */
    method FilterSelection(ready: seq<Queue.Item>, albumId: string) returns (r: seq<Queue.Item>)
      requires albumId != []
      ensures r == FixSelection(ready, albumId)
    {
      r := [];
      for i := 0 to |ready|
        invariant r == FixSelection(ready[..i], albumId)
      {
        FixSelectionStep(ready, albumId, i);
        if ready[i].id == albumId || StartsWith(ready[i].id, albumId) {
          r := r + [ready[i]];
        }
      }
      assert ready[..|ready|] == ready;
    }

    /** `fix`'s loop over the selected albums `ready`, in order. */
    method FixPass(ready: seq<Queue.Item>, fix: Queue.Item -> Fixer.FixOutcome, dryRun: bool, now: string)
      returns (r: FixReport)
      requires queue.Valid()
      modifies queue
      ensures queue.Valid() && queue.order == old(queue.order)
      ensures queue.entries == ApplyMoves(old(queue.entries), ready, FixMoves(fix, dryRun), now)
      ensures r == FixTallies(ready, fix, dryRun)
    {
      ghost var entries0 := queue.entries;
      ghost var moves := FixMoves(fix, dryRun);
      r := FixSummary(0, 0, [], dryRun);
      for k := 0 to |ready|
        invariant queue.Valid() && queue.order == old(queue.order)
        invariant queue.entries == ApplyMoves(entries0, ready[..k], moves, now)
        invariant r == FixTallies(ready[..k], fix, dryRun)
      {
        ApplyMovesStep(entries0, ready, moves, now, k);
        FixTalliesStep(ready, fix, dryRun, k);
        var x := ready[k];
        var o := fix(x);
        ApplyMove(x, FixMove(x, o, dryRun), now);
        r := FixBump(r, x, fix);
      }
      assert ready[..|ready|] == ready;
    }

    /** `_has_audio`. */
    method HasAudio(listing: seq<Scanner.DirEntry>) returns (r: bool)
      ensures r <==> exists e :: e in listing && Scanner.IsAudio(e, AudioExtensions)
    {
      r := HasAudioFiles(listing, AudioExtensions);
    }
  }
}
