/** The command-line handlers' queue transitions: `validate` moves each
    SCANNED album according to its validation outcome, `fix` applies the
    corrections of every ready album, and `review --approve/--reject` set a
    status by id. The agents are parameters: `validate` is what the
    validator's `process` returns for an item, `fix` what the fixer's
    `process` returns for an item in the run's dry-run mode. Printing, the
    banner and the interactive review loop are not modelled. */
module Cli {
  import opened Wrappers
  import opened Text
  import Json
  import Queue
  import State
  import Validator
  import Fixer
  import opened Transitions

  /** The audio extensions the command line recognises. */
  const AudioExtensions: set<string> := {".mp3", ".flac", ".m4a", ".mp4", ".ogg", ".wav", ".wma", ".aac"}

  // ---------------------------------------------------------- validate

  /** `cmd_validate`'s rule for one outcome: auto-approved albums with
      corrections wait for the fixer (VALIDATED), those without are done
      (VERIFIED); review, not-found and rejected verdicts all go to
      NEEDS_REVIEW, flagged differently; an error leaves the item alone. */
  function ValidateMove(o: Validator.Outcome): (m: Move)
    ensures o.Failed? || o.verdict == Validator.Pending ==> m == Stay
    ensures o.Validated? && o.verdict == Validator.AutoApproved ==>
              m.MoveTo? && m.status == (if o.correctionsNeeded > 0 then Queue.Validated else Queue.Verified)
              && m.patch.Keys == {"validation", "confidence"}
    ensures o.Validated? && o.verdict != Validator.AutoApproved && o.verdict != Validator.Pending ==>
              m.MoveTo? && m.status == Queue.NeedsReview
    ensures o.Validated? && o.verdict == Validator.NeedsReview ==>
              m.patch.Keys == {"validation", "confidence", "match"}
              && m.patch["match"] == Json.Object(map["title" := Validator.OptStr(o.data.matchTitle),
                                                      "artist" := Validator.OptStr(o.data.matchArtist),
                                                      "confidence" := Json.Real(o.confidence)])
    ensures o.Validated? && o.verdict == Validator.NotFound ==>
              m.patch.Keys == {"validation", "not_found"} && m.patch["not_found"] == Json.Bool(true)
    ensures o.Validated? && o.verdict == Validator.Rejected ==>
              m.patch.Keys == {"validation", "low_confidence"} && m.patch["low_confidence"] == Json.Bool(true)
    ensures m.MoveTo? ==> m.patch["validation"] == Json.Object(Validator.ResultToDict(o.data))
  {
    match o
    case Failed(_) => Stay
    case Validated(_, verdict, confidence, _, correctionsNeeded, data) =>
      var d := Validator.ResultToDict(data);
      match verdict
      case AutoApproved =>
        MoveTo(if correctionsNeeded > 0 then Queue.Validated else Queue.Verified,
               map["validation" := Json.Object(d), "confidence" := Json.Real(confidence)])
      case NeedsReview =>
        MoveTo(Queue.NeedsReview,
               map["validation" := Json.Object(d), "confidence" := Json.Real(confidence),
                   "match" := Json.Object(map["title" := Validator.OptStr(data.matchTitle),
                                              "artist" := Validator.OptStr(data.matchArtist),
                                              "confidence" := Json.Real(confidence)])])
      case NotFound => MoveTo(Queue.NeedsReview, map["validation" := Json.Object(d), "not_found" := Json.Bool(true)])
      case Rejected => MoveTo(Queue.NeedsReview, map["validation" := Json.Object(d), "low_confidence" := Json.Bool(true)])
      case Pending => Stay
  }

  /** Which counter an outcome bumps: `auto_approved` (and, without
      corrections, `already_correct`), `needs_review` (rejected verdicts
      too), `not_found`; an error is logged instead. */
  datatype ValidateBucket = AutoFix | AlreadyCorrect | Review | Missing | Error | Uncounted

  function ValidateBucketOf(o: Validator.Outcome): ValidateBucket {
    match o
    case Failed(_) => Error
    case Validated(_, verdict, _, _, correctionsNeeded, _) =>
      match verdict
      case AutoApproved => if correctionsNeeded > 0 then AutoFix else AlreadyCorrect
      case NeedsReview => Review
      case Rejected => Review
      case NotFound => Missing
      case Pending => Uncounted
  }

  function ValidateMoves(validate: Validator.Item -> Validator.Outcome): Queue.Item -> Move {
    x => ValidateMove(validate(ValidationInput(x)))
  }

  function ValidateCounts(validate: Validator.Item -> Validator.Outcome): Queue.Item -> ValidateBucket {
    x => ValidateBucketOf(validate(ValidationInput(x)))
  }

  /** The error `cmd_validate` logs for one item: one entry when its
      validation failed. */
  function ValidateErrorOf(x: Queue.Item, validate: Validator.Item -> Validator.Outcome,
                           digest: string -> string, now: string): (es: seq<State.ErrorEntry>)
    requires State.DigestOk(digest)
    ensures |es| == if ValidateCounts(validate)(x) == Error then 1 else 0
  {
    var o := validate(ValidationInput(x));
    if o.Failed? then [State.ErrorEntry(now, State.AlbumId(digest, x.entry.path), x.entry.path, "validation_error", o.error)]
    else []
  }

  /** The errors `cmd_validate` logs, one per failed validation, in order. */
  function ValidateErrors(items: seq<Queue.Item>, validate: Validator.Item -> Validator.Outcome,
                          digest: string -> string, now: string): (es: seq<State.ErrorEntry>)
    requires State.DigestOk(digest)
    ensures |es| == Count(items, ValidateCounts(validate), Error)
  {
    if items == [] then []
    else
      ValidateErrors(items[..|items| - 1], validate, digest, now)
      + ValidateErrorOf(items[|items| - 1], validate, digest, now)
  }

  lemma ValidateErrorsStep(items: seq<Queue.Item>, validate: Validator.Item -> Validator.Outcome,
                           digest: string -> string, now: string, k: nat)
    requires State.DigestOk(digest) && k < |items|
    ensures ValidateErrors(items[..k + 1], validate, digest, now)
            == ValidateErrors(items[..k], validate, digest, now) + ValidateErrorOf(items[k], validate, digest, now)
  {
    assert items[..k + 1][..k] == items[..k];
  }

  /** One pass of `cmd_validate`'s loop: validate the item, move it, and
      log a failure; the result says which counter to bump. */
  method ValidateOne(queue: Queue.QueueManager, state: State.StateStore, x: Queue.Item,
                     validate: Validator.Item -> Validator.Outcome, sessionId: string, now: string)
    returns (b: ValidateBucket)
    requires queue.Valid() && State.DigestOk(state.digest)
    modifies queue, state`errors, state`session
    ensures queue.Valid() && queue.order == old(queue.order)
    ensures queue.entries == Step(old(queue.entries), x, ValidateMoves(validate), now)
    ensures state.errors == old(state.errors) + ValidateErrorOf(x, validate, state.digest, now)
    ensures b == ValidateCounts(validate)(x)
  {
    var o := validate(ValidationInput(x));
    var m := ValidateMove(o);
    if m.MoveTo? {
      var _ := queue.UpdateStatus(x.id, m.status, m.patch, now);
    }
    if o.Failed? {
      var _ := state.LogError(x.entry.path, "validation_error", o.error, sessionId, now);
    }
    b := ValidateBucketOf(o);
  }

  datatype ValidateReport =
    | NothingPending
    | ValidateSummary(autoApproved: nat, needsReview: nat, notFound: nat, alreadyCorrect: nat)

  /** `cmd_validate`'s loop over the SCANNED albums `pending`, in order. */
  method ValidatePass(queue: Queue.QueueManager, state: State.StateStore, pending: seq<Queue.Item>,
                      validate: Validator.Item -> Validator.Outcome, sessionId: string, now: string)
    returns (r: ValidateReport)
    requires queue.Valid() && State.DigestOk(state.digest)
    modifies queue, state`errors, state`session
    ensures queue.Valid() && queue.order == old(queue.order)
    ensures queue.entries == ApplyMoves(old(queue.entries), pending, ValidateMoves(validate), now)
    ensures state.errors == old(state.errors) + ValidateErrors(pending, validate, state.digest, now)
    ensures var counts := ValidateCounts(validate);
            r.ValidateSummary?
            && r.autoApproved == Count(pending, counts, AutoFix) + Count(pending, counts, AlreadyCorrect)
            && r.alreadyCorrect == Count(pending, counts, AlreadyCorrect)
            && r.needsReview == Count(pending, counts, Review)
            && r.notFound == Count(pending, counts, Missing)
  {
    ghost var entries0 := queue.entries;
    ghost var errors0 := state.errors;
    ghost var moves := ValidateMoves(validate);
    ghost var counts := ValidateCounts(validate);
    r := ValidateSummary(0, 0, 0, 0);
    for k := 0 to |pending|
      invariant queue.Valid() && queue.order == old(queue.order)
      invariant queue.entries == ApplyMoves(entries0, pending[..k], moves, now)
      invariant state.errors == errors0 + ValidateErrors(pending[..k], validate, state.digest, now)
      invariant r == Tallies(pending[..k], counts)
    {
      ApplyMovesStep(entries0, pending, moves, now, k);
      ValidateErrorsStep(pending, validate, state.digest, now, k);
      TalliesStep(pending, counts, k);
      var b := ValidateOne(queue, state, pending[k], validate, sessionId, now);
      r := Bump(r, b);
    }
    assert pending[..|pending|] == pending;
    TalliesCount(pending, counts);
  }

  /** The summary after one more outcome: an auto-approval bumps
      `auto_approved` and, without corrections, `already_correct`. */
  function Bump(r: ValidateReport, b: ValidateBucket): (r': ValidateReport)
    requires r.ValidateSummary?
    ensures r'.ValidateSummary?
  {
    match b
    case AutoFix => r.(autoApproved := r.autoApproved + 1)
    case AlreadyCorrect => r.(autoApproved := r.autoApproved + 1, alreadyCorrect := r.alreadyCorrect + 1)
    case Review => r.(needsReview := r.needsReview + 1)
    case Missing => r.(notFound := r.notFound + 1)
    case Error => r
    case Uncounted => r
  }

  /** The summary `cmd_validate` prints after the outcomes of `items`. */
  function Tallies(items: seq<Queue.Item>, counts: Queue.Item -> ValidateBucket): (r: ValidateReport)
    ensures r.ValidateSummary?
  {
    if items == [] then ValidateSummary(0, 0, 0, 0)
    else Bump(Tallies(items[..|items| - 1], counts), counts(items[|items| - 1]))
  }

  lemma TalliesStep(items: seq<Queue.Item>, counts: Queue.Item -> ValidateBucket, k: nat)
    requires k < |items|
    ensures Tallies(items[..k + 1], counts) == Bump(Tallies(items[..k], counts), counts(items[k]))
  {
    assert items[..k + 1][..k] == items[..k];
  }

  /** Each counter of the summary counts its outcomes. */
  lemma {:induction false} TalliesCount(items: seq<Queue.Item>, counts: Queue.Item -> ValidateBucket)
    ensures var r := Tallies(items, counts);
            r.autoApproved == Count(items, counts, AutoFix) + Count(items, counts, AlreadyCorrect)
            && r.alreadyCorrect == Count(items, counts, AlreadyCorrect)
            && r.needsReview == Count(items, counts, Review)
            && r.notFound == Count(items, counts, Missing)
  {
    if items != [] {
      TalliesCount(items[..|items| - 1], counts);
    }
  }

  /** `cmd_validate`: every SCANNED album (by priority) is validated and
      moved by `ValidateMove`; failures are logged; the counters count the
      outcomes. Without SCANNED albums nothing changes. */
  method CmdValidate(queue: Queue.QueueManager, state: State.StateStore,
                     validate: Validator.Item -> Validator.Outcome, sessionId: string, now: string)
    returns (r: ValidateReport, ghost pending: seq<Queue.Item>)
    requires queue.Valid() && State.DigestOk(state.digest)
    modifies queue, state`errors, state`session
    ensures pending == old(queue.GetByStatus(Queue.Scanned))
    ensures queue.Valid() && queue.order == old(queue.order)
    ensures r.NothingPending? <==> pending == []
    ensures queue.entries == ApplyMoves(old(queue.entries), pending, ValidateMoves(validate), now)
    ensures state.errors == old(state.errors) + ValidateErrors(pending, validate, state.digest, now)
    ensures var counts := ValidateCounts(validate);
            r.ValidateSummary? ==>
              r.autoApproved == Count(pending, counts, AutoFix) + Count(pending, counts, AlreadyCorrect)
              && r.alreadyCorrect == Count(pending, counts, AlreadyCorrect)
              && r.needsReview == Count(pending, counts, Review)
              && r.notFound == Count(pending, counts, Missing)
  {
    var scanned := queue.GetByStatus(Queue.Scanned);
    pending := scanned;
    if scanned == [] {
      return NothingPending, pending;
    }
    r := ValidatePass(queue, state, scanned, validate, sessionId, now);
  }

  /** Where `cmd_validate` leaves each SCANNED album. */
  lemma ValidatePassStatuses(entries: map<string, Queue.Entry>, pending: seq<Queue.Item>,
                             validate: Validator.Item -> Validator.Outcome, now: string)
    requires forall x :: x in pending ==> x.id in entries && entries[x.id] == x.entry
    ensures var after := ApplyMoves(entries, pending, ValidateMoves(validate), now);
            forall x :: x in pending ==>
              var o := validate(ValidationInput(x));
              (o.Failed? || o.verdict == Validator.Pending ==> after[x.id] == x.entry)
              && (o.Validated? && o.verdict == Validator.AutoApproved && o.correctionsNeeded > 0
                  ==> after[x.id].status == Queue.AlbumStatus.Validated.Name())
              && (o.Validated? && o.verdict == Validator.AutoApproved && o.correctionsNeeded == 0
                  ==> after[x.id].status == Queue.AlbumStatus.Verified.Name())
              && (o.Validated? && o.verdict in {Validator.NeedsReview, Validator.NotFound, Validator.Rejected}
                  ==> after[x.id].status == Queue.AlbumStatus.NeedsReview.Name())
    ensures var after := ApplyMoves(entries, pending, ValidateMoves(validate), now);
            forall id :: id in entries && (forall x :: x in pending ==> x.id != id) ==> after[id] == entries[id]
  {
    ApplyMovesEffect(entries, pending, ValidateMoves(validate), now);
  }

  /** Every SCANNED album is counted once: on a counter, as a logged
      error, or (a pending verdict) nowhere. */
  lemma {:induction false} ValidateCountsPartition(pending: seq<Queue.Item>, validate: Validator.Item -> Validator.Outcome)
    ensures var counts := ValidateCounts(validate);
            Count(pending, counts, AutoFix) + Count(pending, counts, AlreadyCorrect) + Count(pending, counts, Review)
            + Count(pending, counts, Missing) + Count(pending, counts, Error) + Count(pending, counts, Uncounted)
            == |pending|
  {
    if pending != [] {
      var last := pending[|pending| - 1];
      ValidateCountsPartition(pending[..|pending| - 1], validate);
      assert ValidateCounts(validate)(last) == ValidateBucketOf(validate(ValidationInput(last)));
    }
  }

  // ---------------------------------------------------------------- fix

  /** `cmd_fix`'s rule for one item: no corrections means VERIFIED (even in
      a dry run); a successful or partial fix means FIXED, but only for
      real; a failed fix leaves the item alone. */
  function FixMove(x: Queue.Item, o: Fixer.FixOutcome, dryRun: bool): (m: Move)
    ensures !HasCorrections(x) ==> m == MoveTo(Queue.Verified, map[])
    ensures HasCorrections(x) ==> (m.MoveTo? <==> o.FixDone? && !dryRun)
    ensures m.MoveTo? && HasCorrections(x) ==>
              m.status == Queue.Fixed && "fix_result" in m.patch && m.patch["fix_result"] == Json.Object(Fixer.ResultToDict(o.data))
              && (o.success ==> m.patch.Keys == {"fix_result", "new_path"})
              && (!o.success ==> m.patch.Keys == {"fix_result", "has_errors"} && m.patch["has_errors"] == Json.Bool(true))
  {
    if !HasCorrections(x) then MoveTo(Queue.Verified, map[])
    else if o.FixDone? && !dryRun then
      var d := Fixer.ResultToDict(o.data);
      if o.success then MoveTo(Queue.Fixed, map["fix_result" := Json.Object(d), "new_path" := Json.Get(d, "new_path", Json.Null)])
      else MoveTo(Queue.Fixed, map["fix_result" := Json.Object(d), "has_errors" := Json.Bool(true)])
    else Stay
  }

  datatype FixBucket = NoCorrections | Repaired | NotRepaired

  /** `fixed_count` counts successful and partial fixes (dry runs too),
      `failed_count` the rest of the items that had corrections. */
  function FixBucketOf(x: Queue.Item, o: Fixer.FixOutcome): FixBucket {
    if !HasCorrections(x) then NoCorrections else if o.FixDone? then Repaired else NotRepaired
  }

  function FixMoves(fix: Queue.Item -> Fixer.FixOutcome, dryRun: bool): Queue.Item -> Move {
    x => FixMove(x, fix(x), dryRun)
  }

  function FixCounts(fix: Queue.Item -> Fixer.FixOutcome): Queue.Item -> FixBucket {
    x => FixBucketOf(x, fix(x))
  }

  /** `result.get('error', 'Unknown error')`. */
  function FixErrorMessage(o: Fixer.FixOutcome): string {
    if o.FixError? then o.error else "Unknown error"
  }

  /** The error `cmd_fix` logs for one item: one entry when its fix
      failed. */
  function FixErrorOf(x: Queue.Item, fix: Queue.Item -> Fixer.FixOutcome, digest: string -> string, now: string)
    : (es: seq<State.ErrorEntry>)
    requires State.DigestOk(digest)
    ensures |es| == if FixCounts(fix)(x) == NotRepaired then 1 else 0
  {
    if FixBucketOf(x, fix(x)) == NotRepaired
    then [State.ErrorEntry(now, State.AlbumId(digest, x.entry.path), x.entry.path, "fix_error", FixErrorMessage(fix(x)))]
    else []
  }

  /** The errors `cmd_fix` logs, one per failed fix, in order. */
  function FixErrors(items: seq<Queue.Item>, fix: Queue.Item -> Fixer.FixOutcome,
                     digest: string -> string, now: string): (es: seq<State.ErrorEntry>)
    requires State.DigestOk(digest)
    ensures |es| == Count(items, FixCounts(fix), NotRepaired)
  {
    if items == [] then []
    else
      FixErrors(items[..|items| - 1], fix, digest, now) + FixErrorOf(items[|items| - 1], fix, digest, now)
  }

  lemma FixErrorsStep(items: seq<Queue.Item>, fix: Queue.Item -> Fixer.FixOutcome,
                      digest: string -> string, now: string, k: nat)
    requires State.DigestOk(digest) && k < |items|
    ensures FixErrors(items[..k + 1], fix, digest, now) == FixErrors(items[..k], fix, digest, now) + FixErrorOf(items[k], fix, digest, now)
    ensures TotalChanges(items[..k + 1], fix)
            == TotalChanges(items[..k], fix) + (if FixBucketOf(items[k], fix(items[k])) == Repaired then fix(items[k]).changesMade else 0)
  {
    assert items[..k + 1][..k] == items[..k];
  }

  /** One pass of `cmd_fix`'s loop: fix the item (or mark it verified when
      it has nothing to fix), move it, and log a failure; the result says
      which counter to bump and by how many changes. */
  method FixOne(queue: Queue.QueueManager, state: State.StateStore, x: Queue.Item,
                fix: Queue.Item -> Fixer.FixOutcome, dryRun: bool, sessionId: string, now: string)
    returns (b: FixBucket, changes: nat)
    requires queue.Valid() && State.DigestOk(state.digest)
    modifies queue, state`errors, state`session
    ensures queue.Valid() && queue.order == old(queue.order)
    ensures queue.entries == Step(old(queue.entries), x, FixMoves(fix, dryRun), now)
    ensures state.errors == old(state.errors) + FixErrorOf(x, fix, state.digest, now)
    ensures b == FixCounts(fix)(x)
    ensures changes == if b == Repaired then fix(x).changesMade else 0
  {
    var o := fix(x);
    var m := FixMove(x, o, dryRun);
    assert FixMoves(fix, dryRun)(x) == m;
    if m.MoveTo? {
      var _ := queue.UpdateStatus(x.id, m.status, m.patch, now);
    }
    b := FixBucketOf(x, o);
    changes := 0;
    if b == Repaired {
      changes := o.changesMade;
    } else if b == NotRepaired {
      var _ := state.LogError(x.entry.path, "fix_error", FixErrorMessage(o), sessionId, now);
    }
  }

  /** The changes reported by the successful and partial fixes. */
  function TotalChanges(items: seq<Queue.Item>, fix: Queue.Item -> Fixer.FixOutcome): nat {
    if items == [] then 0
    else
      var x := items[|items| - 1];
      TotalChanges(items[..|items| - 1], fix) + (if FixBucketOf(x, fix(x)) == Repaired then fix(x).changesMade else 0)
  }

  /** The items `cmd_fix` works on: the ready list, narrowed by `--album`. */
  function FixSelection(ready: seq<Queue.Item>, album: string): seq<Queue.Item> {
    if album != [] then SelectByPrefix(ready, album) else ready
  }

  datatype FixReport = NothingToFix | FixSummary(fixedCount: nat, failedCount: nat, totalChanges: nat)

  /** `cmd_fix`'s loop over the selected albums `ready`, in order. */
  method FixPass(queue: Queue.QueueManager, state: State.StateStore, ready: seq<Queue.Item>,
                 fix: Queue.Item -> Fixer.FixOutcome, dryRun: bool, sessionId: string, now: string)
    returns (r: FixReport)
    requires queue.Valid() && State.DigestOk(state.digest)
    modifies queue, state`errors, state`session
    ensures queue.Valid() && queue.order == old(queue.order)
    ensures queue.entries == ApplyMoves(old(queue.entries), ready, FixMoves(fix, dryRun), now)
    ensures state.errors == old(state.errors) + FixErrors(ready, fix, state.digest, now)
    ensures r.FixSummary?
            && r.fixedCount == Count(ready, FixCounts(fix), Repaired)
            && r.failedCount == Count(ready, FixCounts(fix), NotRepaired)
            && r.totalChanges == TotalChanges(ready, fix)
  {
    ghost var entries0 := queue.entries;
    ghost var errors0 := state.errors;
    ghost var moves := FixMoves(fix, dryRun);
    ghost var counts := FixCounts(fix);
    var fixedCount, failedCount, totalChanges := 0, 0, 0;
    for k := 0 to |ready|
      invariant queue.Valid() && queue.order == old(queue.order)
      invariant queue.entries == ApplyMoves(entries0, ready[..k], moves, now)
      invariant state.errors == errors0 + FixErrors(ready[..k], fix, state.digest, now)
      invariant fixedCount == Count(ready[..k], counts, Repaired)
      invariant failedCount == Count(ready[..k], counts, NotRepaired)
      invariant totalChanges == TotalChanges(ready[..k], fix)
    {
      ApplyMovesStep(entries0, ready, moves, now, k);
      FixErrorsStep(ready, fix, state.digest, now, k);
      CountStep(ready, counts, k);
      var b, changes := FixOne(queue, state, ready[k], fix, dryRun, sessionId, now);
      match b {
        case NoCorrections =>
        case Repaired =>
          fixedCount := fixedCount + 1;
          totalChanges := totalChanges + changes;
        case NotRepaired =>
          failedCount := failedCount + 1;
      }
    }
    assert ready[..|ready|] == ready;
    r := FixSummary(fixedCount, failedCount, totalChanges);
  }

  /** `cmd_fix`: the ready albums (VALIDATED, then APPROVED), narrowed by
      `--album`, are fixed one by one and moved by `FixMove`; failed fixes
      are logged. */
  method CmdFix(queue: Queue.QueueManager, state: State.StateStore, fix: Queue.Item -> Fixer.FixOutcome,
                dryRun: bool, album: string, sessionId: string, now: string)
    returns (r: FixReport, ghost ready: seq<Queue.Item>)
    requires queue.Valid() && State.DigestOk(state.digest)
    modifies queue, state`errors, state`session
    ensures ready == FixSelection(old(queue.GetReadyToFix()), album)
    ensures queue.Valid() && queue.order == old(queue.order)
    ensures r.NothingToFix? <==> ready == []
    ensures queue.entries == ApplyMoves(old(queue.entries), ready, FixMoves(fix, dryRun), now)
    ensures state.errors == old(state.errors) + FixErrors(ready, fix, state.digest, now)
    ensures r.FixSummary? ==>
              r.fixedCount == Count(ready, FixCounts(fix), Repaired)
              && r.failedCount == Count(ready, FixCounts(fix), NotRepaired)
              && r.totalChanges == TotalChanges(ready, fix)
  {
    var selected := queue.GetReadyToFix();
    if album != [] {
      selected := SelectByPrefix(selected, album);
    }
    ready := selected;
    if selected == [] {
      return NothingToFix, ready;
    }
    r := FixPass(queue, state, selected, fix, dryRun, sessionId, now);
  }

  /** Where `cmd_fix` leaves each selected album. */
  lemma FixPassStatuses(entries: map<string, Queue.Entry>, ready: seq<Queue.Item>,
                        fix: Queue.Item -> Fixer.FixOutcome, dryRun: bool, now: string)
    requires forall x :: x in ready ==> x.id in entries && entries[x.id] == x.entry
    ensures var after := ApplyMoves(entries, ready, FixMoves(fix, dryRun), now);
            forall x :: x in ready ==>
              (!HasCorrections(x) ==> after[x.id].status == Queue.AlbumStatus.Verified.Name())
              && (HasCorrections(x) && fix(x).FixDone? && !dryRun ==> after[x.id].status == Queue.AlbumStatus.Fixed.Name())
              && (HasCorrections(x) && (dryRun || !fix(x).FixDone?) ==> after[x.id] == x.entry)
  {
    ApplyMovesEffect(entries, ready, FixMoves(fix, dryRun), now);
  }

  /** Every selected album is verified, fixed or failed: exactly one. */
  lemma {:induction false} FixCountsPartition(ready: seq<Queue.Item>, fix: Queue.Item -> Fixer.FixOutcome)
    ensures Count(ready, FixCounts(fix), NoCorrections) + Count(ready, FixCounts(fix), Repaired)
            + Count(ready, FixCounts(fix), NotRepaired) == |ready|
  {
    if ready != [] {
      var last := ready[|ready| - 1];
      FixCountsPartition(ready[..|ready| - 1], fix);
      assert FixCounts(fix)(last) == FixBucketOf(last, fix(last));
    }
  }

  // ------------------------------------------------------------- review

  /** `review --approve <id>` (`approve`) and `review --reject <id>`
      (`reject`): exit code 1 for an unknown id, which changes nothing. */
  method CmdReview(queue: Queue.QueueManager, id: string, approve: bool, now: string) returns (code: int)
    requires queue.Valid()
    modifies queue
    ensures queue.Valid() && queue.order == old(queue.order)
    ensures code == 0 <==> id in old(queue.entries)
    ensures code == 1 <==> id !in old(queue.entries)
    ensures id in old(queue.entries) ==>
              queue.entries == old(queue.entries)[id := Moved(old(queue.entries)[id],
                                                       MoveTo(if approve then Queue.Approved else Queue.Rejected, map[]), now)]
    ensures id !in old(queue.entries) ==> queue.entries == old(queue.entries)
  {
    var ok := queue.UpdateStatus(id, if approve then Queue.Approved else Queue.Rejected, map[], now);
    code := if ok then 0 else 1;
  }
}
