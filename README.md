# music-metadata-toolkit, modelled in Dafny

This project models the core of music-metadata-toolkit, a Python toolkit that reconciles a local music library against external catalogues and then applies corrections selectively. Each Python source file of the core becomes one Dafny module, named after it:

- **Persistent state and the work queue** (`State`, `Queue`, `Transitions`, `Config`).
  - The per-album state store and the session record, with content-addressed album ids.
  - The priority-ordered queue and its status lifecycle.
  - The status moves that the command-line front end (`Cli`, after `orchestrator/main.py`) makes in its validate, fix and review passes.
  - The dotted-key configuration reader.
  - The queue and the state store are classes whose methods update their fields in place.
- **Agents** (`Agent`, `Scanner`, `Validator`, `Fixer`).
  - `Agent`: the batch loop shared by all agents.
  - `Scanner`: the scanner's issue flags and track ranking.
  - `Validator`:
    - the matching and confidence engine: similarity, best candidate, confidence;
    - the classification into auto-approved, needs review, not found and rejected;
    - the correction classifier that separates safe, cosmetic fixes from the ones that need a person.
  - `Fixer`: the fix applier, which applies safe corrections one by one, tolerates partial failure and takes a backup first.
- **Orchestration** (`Orchestrator`, `ClaudeAgents`, `MetadataSystem`, `MusicNames`).
  - The orchestrator's scan/validate/fix workflow.
  - The agent request and response handling: fenced-JSON extraction, required fields, the auto-apply rule.
  - The metadata system's album pipeline: quality score, grade, discrepancies, conflict resolution, cover-art checks, the summary counters.
  - Its folder and file naming rules.
- **Catalogue adapters** (`SourceBase`, `SourceCommon`, `Spotify`, `Discogs`, `MusicBrainz`).
  - The common title cleaning, the confidence scoring and the result orderings.
  - The HTTP calls are parameters.
- **Library utilities**:
  - disc consolidation, in three variants (`DiscConsolidator`, `ConsolidateMultidisc`, `ConsolidateDiscs`);
  - name clean-up (`CleanupNames`);
  - the folder validator (`FolderValidator`);
  - the various-artists validator (`ValidateVariousArtists`);
  - correction application (`ApplyCorrections`);
  - metadata extraction (`ExtractMetadata`);
  - the review CSV generator and processor (`GenerateReviewCsv`, `ProcessReviewCsv`).

Supporting modules carry no row of their own:

- `Wrappers`: Option and Result.
- `Text`: the Python `str` built-ins the code uses.
- `Json`: JSON values and `dict.get`.
- `Patterns`: the regular expressions, written out as functions.
- `Sorting`: stable insertion orderings.

Outside effects are handled as follows:

- **Parameters.** The file system, tag reading and writing, HTTP, the clock, the md5 digest and the string-similarity ratio are passed in as parameters (functions or values).
- **What the model shows.** What the code decides from them follows the same branches, the same constants and the same error outcomes, except where a line under "## Left out" says otherwise.
- **Results.** The code's `dict` results become datatypes or `Json` objects with the same keys.

## Model

Every row names a member whose contract states the property in the third column. Source paths are relative to the repository root.

The `ConsolidateMultidisc.ConsolidateDiscs` method implements the corrected success check, not the program's. Besides the program's comparison of the number of copy operations, it requires the new folder to hold as many files as were copied, so no copy overwrote another. `ConsolidateMultidisc.ConsolidateAsWritten` keeps the program's check alone; see "## Findings".

Likewise, the pipeline uses the corrected members:

- `MetadataSystem.Validate`;
- `MetadataSystem.ProcessAlbum` and `MetadataSystem.ProcessAll`;
- `ConsolidateDiscs.NewName`, used in `ConsolidateDiscs.PreviewConsolidation`.

Their as-written counterparts exist beside them and are also listed under "## Findings".

| member | source | states |
|---|---|---|
| Agent.TallyOf | agents/base.py:79-95 | an item counts as a success or a skip exactly when its result's status says so; an item that raises counts as failed |
| Agent.ErrorEntry | agents/base.py:92-97 | the error record has exactly the item's path, status "error" and the message |
| Agent.EntryOf | agents/base.py:86-99 | the entry is the result itself, or an error record with the item's path, status "error" and the message |
| Agent.CallbackRaise | agents/base.py:89-90 | the callback runs only when a callback is given and `process` returned, with the item, the result and the item's index |
| Agent.ItemEntries | agents/base.py:86-97 | an item adds its attempt's entry, and a second, error entry exactly when its callback raised |
| Agent.CountsPartition | agents/base.py:76-99 | every item lands on exactly one of the three counters |
| Agent.CallbackFailures | agents/base.py:89-93 | callbacks raise for at most every item, and never without a callback |
| Agent.BatchEntries | agents/base.py:86-97 | the batch has one entry per item plus one per raising callback |
| Agent.QuietCallbackEntries | agents/base.py:86-97 | without a callback, or with one that never raises, entry i is item i's attempt's entry and there is no extra failure |
| Agent.RaisingCallbackCountsTwice | agents/base.py:79-97 | a successful item whose callback raises counts as a success and as a failure and adds its result and an error record |
| Agent.RecordAttempt | agents/base.py:77-99 | one pass appends the item's entries and raises the counter of its outcome, and `failed` once more when the callback raised |
| Agent.BaseAgent.constructor | agents/base.py:24-36 | the agent keeps its name and its state store |
| Agent.BaseAgent.ProcessBatch | agents/base.py:55-102 | every item is processed in order; an exception does not stop the batch; the entries are the items' entries in order; each counter counts its outcomes, `failed` also the raising callbacks, so the counters add up to the total plus those |
| Agent.BaseAgent.SaveState | agents/base.py:130-132 | only the album's record changes, to the saved record |
| Agent.BaseAgent.GetState | agents/base.py:134-136 | the store's record for the path |
| ApplyCorrections.Cleaned | utilities/apply_corrections.py:31-41 | the cleaned title contains none of the ignored punctuation characters or blanks |
| ApplyCorrections.DiscDigitsLen | utilities/apply_corrections.py:52-53 | the length of a `disc`, blanks, digits match never runs past the text |
| ApplyCorrections.IsSafeCorrection | utilities/apply_corrections.py:15-69 | formatting only exactly when the cleaned titles are equal; volume notation exactly when they differ, the local one is contained in the correct one and "vol" appears; disc notation only when equal after removing `disc N`; an empty correct word set is unsafe; the overlap reasons carry the shared and total word counts and are safe exactly when at least 70% of the correct words are shared |
| ApplyCorrections.CaseOnlyIsFormatting | utilities/apply_corrections.py:32-45 | titles differing only in letter case are a safe formatting-only correction |
| ApplyCorrections.FormattingOnlySymmetric | utilities/apply_corrections.py:44-45 | the formatting-only verdict does not depend on which title is the local one |
| ApplyCorrections.SameWordsIsSafe | utilities/apply_corrections.py:57-67 | a correction with the same non-empty word set as the local title is always judged safe |
| ApplyCorrections.DisjointWordsNotByOverlap | utilities/apply_corrections.py:64-69 | titles sharing no word are never accepted on word overlap |
| ApplyCorrections.ToCorrection | utilities/apply_corrections.py:104-116 | a list entry keeps the local title as old name, the correct title as new name, the id, and the verdict's reason |
| ApplyCorrections.Mismatches | utilities/apply_corrections.py:88 | only albums whose title_match is false are considered |
| ApplyCorrections.SafeCorrections | utilities/apply_corrections.py:96-109 | every entry of the safe list is a formatting-only correction |
| ApplyCorrections.ManualReview | utilities/apply_corrections.py:96-116 | no entry of the manual-review list is a formatting-only correction |
| ApplyCorrections.PartitionComplete | utilities/apply_corrections.py:88-116 | every mismatch lands in exactly one of the two lists |
| ApplyCorrections.ListsSelected | utilities/apply_corrections.py:93-116 | the safe list is the corrections of the automatic mismatches and the manual-review list those of the other mismatches, each in report order |
| ApplyCorrections.Partition | utilities/apply_corrections.py:93-116 | the loop builds exactly the safe and the manual-review lists, in report order |
| ApplyCorrections.RenameStep | utilities/apply_corrections.py:143-164 | each correction counts once; a missing folder, an existing target or a refused rename is an error that changes nothing; a success replaces the old name by the new one |
| ApplyCorrections.RenamesCounted | utilities/apply_corrections.py:139-164 | successes plus errors equal the number of safe corrections |
| ApplyCorrections.RenamesKeepCount | utilities/apply_corrections.py:148-161 | renaming never merges or loses folders: the directory keeps its size |
| ApplyCorrections.RenamePass | utilities/apply_corrections.py:139-164 | the rename loop ends in the state and counts of the renames applied in order |
| ApplyCorrections.ApplyTitleCorrections | utilities/apply_corrections.py:71-188 | returns the two lists; a dry run changes no folder and reports zero successes and errors; otherwise the folders and counts are those of the renames of the safe list, and every safe correction is counted once |
| ClaudeAgents.OrEmptyList | orchestrator/claude_agents.py:133-134 | a falsy list argument becomes the empty list, a truthy one is kept |
| ClaudeAgents.PrepareValidationInput | orchestrator/claude_agents.py:103-145 | the request names the metadata_validator agent and the clock's time; its input carries exactly the nine fields, the source lists default to `[]`, the track count to 0 and the artwork flag to false |
| ClaudeAgents.PrepareEnrichmentInput | orchestrator/claude_agents.py:186-223 | the request names the metadata_enrichment agent; the title falls back to the folder name when absent or empty and the current metadata to `{}` |
| ClaudeAgents.FindFrom | orchestrator/claude_agents.py:274-281 | `find` returns -1 or the first position at or after the start where the mark occurs |
| ClaudeAgents.FirstFrom | orchestrator/claude_agents.py:274-281 | a mark found before any earlier opening character is where `find` stops |
| ClaudeAgents.Slice | orchestrator/claude_agents.py:276 | Python slicing with an end of -1 stops one before the end; otherwise it is the plain slice |
| ClaudeAgents.ExtractJsonText | orchestrator/claude_agents.py:272-283 | the text handed to the JSON parser is never longer than the reply |
| ClaudeAgents.FencedText | orchestrator/claude_agents.py:273-283 | the text taken from a fence, or the whole reply when neither mark occurs, is never longer than the reply |
| ClaudeAgents.FenceSlice | orchestrator/claude_agents.py:275-276 | the slice from the start to the next closing fence is never longer than the reply |
| ClaudeAgents.OpenedAt | orchestrator/claude_agents.py:273-276 | when the ```json mark occurs, the text is the slice after it |
| ClaudeAgents.PlainAt | orchestrator/claude_agents.py:277-281 | when only a plain fence occurs, the text is the slice after it |
| ClaudeAgents.ClosedBody | orchestrator/claude_agents.py:275-276 | a backtick-free body followed by the closing fence is exactly the slice up to the closing fence |
| ClaudeAgents.UnfencedReply | orchestrator/claude_agents.py:282-283 | a reply without a backtick is parsed whole, stripped |
| ClaudeAgents.FencedAt | orchestrator/claude_agents.py:273-276 | after a backtick-free prefix, the first opening mark is at the end of the prefix and the slice up to the closing fence is the body |
| ClaudeAgents.UnfencedWith | orchestrator/claude_agents.py:282-283 | for any marks that start with a backtick, a reply without a backtick is taken whole |
| ClaudeAgents.JsonFencedReply | orchestrator/claude_agents.py:273-276 | a ```json fence yields its stripped body whatever follows |
| ClaudeAgents.OpenFenceWith | orchestrator/claude_agents.py:273-276 | an opening mark after a backtick-free prefix, then a backtick-free body and the closing fence, yields exactly the body |
| ClaudeAgents.PlainFencedReply | orchestrator/claude_agents.py:277-281 | without a ```json fence, a plain fence yields its stripped body |
| ClaudeAgents.PlainFenceWith | orchestrator/claude_agents.py:277-281 | with no opening mark, a plain fence after a backtick-free prefix around a backtick-free body yields exactly the body |
| ClaudeAgents.UnclosedJsonFence | orchestrator/claude_agents.py:274-276 | a ```json fence never closed loses the reply's last character, because `find` returns -1 and the slice stops one before the end |
| ClaudeAgents.UnclosedWith | orchestrator/claude_agents.py:273-276 | an opening mark never closed yields the body without its final character |
| ClaudeAgents.UnclosedAt | orchestrator/claude_agents.py:274-276 | for a mark never closed, the first mark ends the prefix and the slice drops the reply's final character |
| ClaudeAgents.MarkAfter | orchestrator/claude_agents.py:274 | a mark right after a prefix without the mark's first character is the first one `find` returns |
| ClaudeAgents.NoFenceAfter | orchestrator/claude_agents.py:275 | with no backtick at or after the start, `find` of the closing fence returns -1 |
| ClaudeAgents.Prefix500 | orchestrator/claude_agents.py:290 | the raw-response excerpt is a prefix of at most 500 characters, the whole reply when it is shorter |
| ClaudeAgents.ParseAgentResponse | orchestrator/claude_agents.py:259-291 | the parsed JSON of the extracted text, or a parse_error record with the parser's message and the first 500 characters of the reply |
| ClaudeAgents.RequiredFields | orchestrator/claude_agents.py:303-311 | the five known agents each require a non-empty field list; any other name requires none |
| ClaudeAgents.AllPresent | orchestrator/claude_agents.py:312 | `all` over the fields is true exactly when every field is present |
| ClaudeAgents.ValidateResponse | orchestrator/claude_agents.py:292-312 | a reply is valid exactly when it carries every required field of its agent |
| ClaudeAgents.UnknownAgentAccepts | orchestrator/claude_agents.py:311-312 | any reply is valid for an unknown agent name |
| ClaudeAgents.ValidatorReplyFields | orchestrator/claude_agents.py:304 | a validator reply is valid exactly when it carries a quality score and a validation status |
| ClaudeAgents.AutoApply | orchestrator/claude_agents.py:362-373 | for a numeric score the decision is true exactly when the score is at least 85 without a review request, or at least 90 without an explicit track-count mismatch |
| ClaudeAgents.BelowFlagNeverApplies | orchestrator/claude_agents.py:362-373 | below 85 nothing is applied automatically |
| ClaudeAgents.Number | orchestrator/claude_agents.py:364 | the comparison with a threshold works for numbers and booleans and fails for any other value |
| ClaudeAgents.ShouldAutoApply | orchestrator/claude_agents.py:347-373 | a missing score counts as 0; a score that is not a number raises; otherwise the decision is the threshold rule with the review flag read as truthy |
| ClaudeAgents.MissingScoreNotApplied | orchestrator/claude_agents.py:360-373 | a result without a score is never applied |
| ClaudeAgents.OnlyFalseIsMismatch | orchestrator/claude_agents.py:367-371 | only an explicit `false` track-count match blocks a score of 90 or more |
| ClaudeAgents.LogEntry | orchestrator/claude_agents.py:389-394 | a log record has exactly the step, agent, result and timestamp fields |
| ClaudeAgents.FullWorkflow | orchestrator/claude_agents.py:403-450 | three steps in order: the validation request built from the enrichment data's best match and source lists, then the conflict resolver depending on the validator, then the report generator depending on both |
| ClaudeAgents.AgentWorkflow.constructor | orchestrator/claude_agents.py:383-385 | the workflow log starts empty |
| ClaudeAgents.AgentWorkflow.LogStep | orchestrator/claude_agents.py:387-394 | exactly one entry is appended, and the summary's step count grows by one |
| ClaudeAgents.AgentWorkflow.Summary | orchestrator/claude_agents.py:396-401 | the step count is the log's length and the log is reported entry for entry |
| CleanupNames.NotationEnd | utilities/cleanup_names.py:54-58 | a trailing disc notation ends the name with a digit or `]` and holds at least one digit |
| CleanupNames.NumberAt | utilities/cleanup_names.py:54-58 | a disc notation's number is a non-empty run of digits ending the name, or followed only by `]` in the bracketed form |
| CleanupNames.EndOfDigits | utilities/cleanup_names.py:54-58 | a name ending in a run of digits, with or without a closing `]`, ends in a digit or `]` and holds a digit |
| CleanupNames.FindNotation | utilities/cleanup_names.py:52-65 | the first matching pattern in the order `[Disc N]`, `Disc N`, `Disk N` is found at the end of the name with its non-empty digits; when none is found, none of the three patterns matches anywhere |
| CleanupNames.NotationFound | utilities/cleanup_names.py:61-65 | a notation matched at a position yields that position and its non-empty digits |
| CleanupNames.ColonUnderscores | utilities/cleanup_names.py:69 | an underscore followed by blanks becomes `: `; no other character is introduced, and a name without underscores is unchanged |
| CleanupNames.YearUnderscores | utilities/cleanup_names.py:72 | `_YYYY` becomes ` (YYYY)`; a name without underscores is unchanged |
| CleanupNames.BracketsToParens | utilities/cleanup_names.py:79 | square-bracket groups become parenthesised; a name without `[` is unchanged |
| CleanupNames.BracketGroupToParens | utilities/cleanup_names.py:79 | a non-empty group `[x]` after bracket-free text becomes `(x)` and the rest is converted on its own |
| CleanupNames.PlainPrefix | utilities/cleanup_names.py:79 | bracket-free leading text passes through unchanged |
| CleanupNames.GroupAtFront | utilities/cleanup_names.py:79 | a leading `[x]` becomes `(x)` |
| CleanupNames.CollapseRuns | utilities/cleanup_names.py:83 | runs of two or more blanks become one space; a name without such runs is unchanged |
| CleanupNames.SpaceAfter | utilities/cleanup_names.py:86-92 | blanks around a colon or a comma become exactly one space after it; a name without the separator is unchanged |
| CleanupNames.HyphenLen | utilities/cleanup_names.py:89 | a blanks-hyphen-blanks match never runs past the text and ends on a hyphen or a blank |
| CleanupNames.SpaceHyphens | utilities/cleanup_names.py:89 | hyphens not between digits get one space on each side; a name without hyphens is unchanged |
| CleanupNames.SplitNotation | utilities/cleanup_names.py:52-65 | the name without its notation is a prefix of the name; the notation's digits are found exactly when FindNotation finds one |
| CleanupNames.Standardize | utilities/cleanup_names.py:67-95 | the standardised name has no underscore and only characters of the name or inserted separators |
| CleanupNames.NotationTail | utilities/cleanup_names.py:63 | the restored ` [Disc N]` has no underscore and only the digits and inserted characters |
| CleanupNames.CleanAlbumName | utilities/cleanup_names.py:33-101 | the cleaned name has no underscore and introduces only separator characters; with a disc notation it ends with ` [Disc N]` for the found digits, otherwise it is the standardised name |
| CleanupNames.PlainNameUnchanged | utilities/cleanup_names.py:33-101 | a tidy name without digits, underscores, brackets, colons, hyphens or commas is left unchanged |
| CleanupNames.NoNotation | utilities/cleanup_names.py:54-58 | a name without digits has no disc notation |
| CleanupNames.TruncationTest | utilities/cleanup_names.py:116-117 | the name examined is a prefix of the name with a trailing disc notation removed |
| CleanupNames.DetectTruncation | utilities/cleanup_names.py:103-136 | a name is flagged exactly when, without its disc notation, it ends with `...`, ends with an underscore and blanks, or its last word is shorter than 3 characters and not an allowed short word or a number |
| CleanupNames.TestKeepsName | utilities/cleanup_names.py:116-117 | a name ending neither in a digit nor in `]` is examined whole |
| CleanupNames.EllipsisTruncated | utilities/cleanup_names.py:120-121 | a name ending with `...` is flagged |
| CleanupNames.UnderscoreTruncated | utilities/cleanup_names.py:124-125 | a name ending with an underscore and blanks is flagged |
| CleanupNames.CleanedHasNoUnderscoreSign | utilities/cleanup_names.py:67-75 | a cleaned name never shows the trailing-underscore sign of truncation |
| CleanupNames.NeedsCleaning | utilities/cleanup_names.py:168-182 | every needs-cleaning entry is a listed folder whose cleaned name differs, with that cleaned name |
| CleanupNames.Truncated | utilities/cleanup_names.py:184-187 | the truncated list holds exactly the folders detect_truncation flags |
| CleanupNames.CleanList | utilities/cleanup_names.py:189-191 | the clean list holds exactly the folders cleaning leaves unchanged and not flagged as truncated |
| CleanupNames.ScanPartition | utilities/cleanup_names.py:168-191 | every folder is counted once: needs cleaning, clean, or unchanged but truncated |
| CleanupNames.ScanOfLists | utilities/cleanup_names.py:168-191 | the scan loop's three lists are the needs-cleaning, truncated and clean lists |
| CleanupNames.ScanAlbums | utilities/cleanup_names.py:138-217 | the scan returns exactly the three lists |
| CleanupNames.RenameAlbumFolder | utilities/cleanup_names.py:219-257 | no change or a dry run succeeds and leaves the folders alone; an existing target fails and changes nothing; only a successful rename of an existing folder to a free name changes the directory |
| CleanupNames.RenameKeepsCount | utilities/cleanup_names.py:219-257 | a rename never changes the number of folders |
| CleanupNames.BatchRenames | utilities/cleanup_names.py:281-287 | every entry counts once as a success or an error, and the directory keeps its size |
| CleanupNames.DryRunAllSucceed | utilities/cleanup_names.py:281-287 | a dry run counts every entry as a success and changes nothing |
| CleanupNames.BatchCleanup | utilities/cleanup_names.py:259-292 | the renames of the scan's needs-cleaning list, in order: each counted once, the directory keeps its size, and a dry run changes nothing |
| CleanupNames.RenamePass | utilities/cleanup_names.py:281-287 | the rename loop ends in the state and counts of the batch renames |
| Cli.ValidateMove | orchestrator/main.py:244-306 | an error or a pending verdict leaves the album alone; auto-approved goes to VALIDATED with corrections and to VERIFIED without, with the validation data and confidence; review, not-found and rejected verdicts go to NEEDS_REVIEW with the match, not_found or low_confidence flag |
| Cli.ValidateErrorOf | orchestrator/main.py:304-306 | one validation_error entry is logged exactly when the validation failed |
| Cli.ValidateErrors | orchestrator/main.py:227-306 | the logged errors are as many as the failed validations |
| Cli.ValidateOne | orchestrator/main.py:228-306 | one pass moves the album by its outcome, logs its failure, and reports the counter to bump |
| Cli.ValidatePass | orchestrator/main.py:221-306 | the loop applies every album's move in order, logs every failure, and each counter counts its outcomes (already-correct albums also count as auto-approved, rejected ones as needing review) |
| Cli.Bump | orchestrator/main.py:252-301 | one outcome keeps the summary a summary |
| Cli.Tallies | orchestrator/main.py:221-301 | the counters of a run are a summary |
| Cli.TalliesCount | orchestrator/main.py:221-301 | each counter equals the number of outcomes it counts |
| Cli.CmdValidate | orchestrator/main.py:192-323 | the SCANNED albums in priority order are validated; with none, nothing changes; otherwise the queue, the error log and the counters are those of the pass |
| Cli.ValidatePassStatuses | orchestrator/main.py:246-306 | after the pass each SCANNED album has the status its outcome selects, and every other album is untouched |
| Cli.ValidateCountsPartition | orchestrator/main.py:246-306 | every SCANNED album is counted once: on a counter, as an error, or not at all for a pending verdict |
| Cli.FixMove | orchestrator/main.py:463-523 | an album without corrections goes to VERIFIED even in a dry run; with corrections it moves to FIXED exactly when the fix succeeded or was partial and the run is real, recording the fix result and the new path or the error flag |
| Cli.FixErrorOf | orchestrator/main.py:519-523 | one fix_error entry is logged exactly when a fix of an album with corrections failed |
| Cli.FixErrors | orchestrator/main.py:452-523 | the logged errors are as many as the failed fixes |
| Cli.FixErrorsStep | orchestrator/main.py:452-523 | the error log and the change total grow by exactly one album's share per pass |
| Cli.FixOne | orchestrator/main.py:453-523 | one pass moves the album, logs a failure, and reports its counter and the changes it made |
| Cli.FixPass | orchestrator/main.py:447-523 | the loop applies every album's move in order; the fixed, failed and change counters count the successful or partial fixes, the failures and their changes |
| Cli.CmdFix | orchestrator/main.py:416-543 | the ready albums, narrowed to ids starting with `--album`, are fixed in order; with none, nothing changes |
| Cli.FixPassStatuses | orchestrator/main.py:463-516 | after the pass albums without corrections are VERIFIED, successful real fixes are FIXED, and dry runs and failures leave the album as it was |
| Cli.FixCountsPartition | orchestrator/main.py:463-523 | every selected album is exactly one of verified, fixed or failed |
| Cli.CmdReview | orchestrator/main.py:348-366 | approve or reject sets APPROVED or REJECTED on a known id with exit code 0; an unknown id gives exit code 1 and changes nothing |
| Config.DefaultConfig | orchestrator/config.py:42-64 | the defaults have exactly the sections library, sources, thresholds and output |
| Config.Walk | orchestrator/config.py:78-85 | the walk goes through objects only, fails below a value that is not an object, and never yields null for a non-empty path |
| Config.ReferenceName | orchestrator/config.py:88-89 | the name inside `${...}`, so wrapping it again gives back the value |
| Config.WalkCredential | orchestrator/config.py:104-111 | the credential walk gives null below any value that is not an object |
| Config.ConfigManager.constructor | orchestrator/config.py:20-40 | a missing configuration file gives the defaults and an empty one `{}`; the credentials are `{}` unless a non-empty file is given |
| Config.ConfigManager.Get | orchestrator/config.py:66-92 | the loop returns the lookup of the dotted key: the stored value, the default when the walk fails, the environment value of a `${VAR}` reference |
| Config.ConfigManager.GetCredential | orchestrator/config.py:94-111 | the loop returns the credential walk of the dotted key |
| Config.LookupStored | orchestrator/config.py:78-92 | a stored non-null value is returned as it is, even a falsy one |
| Config.LookupMissing | orchestrator/config.py:80-85 | a missing or null entry gives the default |
| Config.LookupThroughLeaf | orchestrator/config.py:80-83 | below a value that is not an object every path gives the default |
| Config.LookupReference | orchestrator/config.py:88-90 | a `${VAR}` value is the environment's VAR, or the default when VAR is unset |
| Config.LookupPair | orchestrator/config.py:77-92 | a two-part key finds the member of the member, and the default when either level is missing or null |
| Config.DefaultThresholds | orchestrator/config.py:52-56 | without a configuration file the auto-approve threshold is 0.95 and the review threshold 0.70 |
| Config.FallbackThresholds | orchestrator/config.py:141-147 | a configuration without a thresholds section falls back to 0.95 and 0.70 |
| Config.CredentialMissing | orchestrator/config.py:104-111 | a missing credential is null |
| ConsolidateDiscs.MatchIndicator | utilities/consolidate_discs.py:54-56 | a matched disc indicator always has digits |
| ConsolidateDiscs.IndicatorShape | utilities/consolidate_discs.py:54-56 | a matched indicator is a disc keyword, blanks and digits, and spells the text it was read from |
| ConsolidateDiscs.MatchTail | utilities/consolidate_discs.py:54-56 | a matched disc tail always has digits |
| ConsolidateDiscs.TailShape | utilities/consolidate_discs.py:54-56 | a matched tail is well formed and spells the text after the album name |
| ConsolidateDiscs.MatchFirst | utilities/consolidate_discs.py:63-68 | the first pattern that matches is taken; nothing is found exactly when no pattern matches |
| ConsolidateDiscs.MatchFirstSkips | utilities/consolidate_discs.py:63-68 | a pattern that does not match is passed over |
| ConsolidateDiscs.FolderDisc | utilities/consolidate_discs.py:53-67 | a disc folder's name starts with the album name, compared case-insensitively, followed by a well-formed disc tail whose digits give the disc number |
| ConsolidateDiscs.MatchOwnIndicator | utilities/consolidate_discs.py:54-56 | a keyword, blanks and digits under a pattern's brackets are read back as themselves |
| ConsolidateDiscs.MatchOwnTail | utilities/consolidate_discs.py:54-56 | every well-formed disc tail written under a pattern is matched by that pattern and read back exactly |
| ConsolidateDiscs.OtherWrapperFails | utilities/consolidate_discs.py:54-56 | a tail written under one pattern is not matched by another |
| ConsolidateDiscs.FolderDiscFound | utilities/consolidate_discs.py:53-67 | the album name in any letter case followed by a well-formed tail is a disc folder with the tail's number |
| ConsolidateDiscs.OnlyOwnPatternMatches | utilities/consolidate_discs.py:63-68 | the first pattern matching a tail is the one it was written under |
| ConsolidateDiscs.DiscFoldersIn | utilities/consolidate_discs.py:59-68 | the found pairs are exactly the listed folders that are disc folders of the album, with their numbers |
| ConsolidateDiscs.FindDiscFolders | utilities/consolidate_discs.py:34-70 | the disc folders with their numbers, exactly those of the listing, sorted by disc number |
| ConsolidateDiscs.FindDiscFoldersStable | utilities/consolidate_discs.py:70 | the sort is stable: folders with the same disc number keep their listing order |
| ConsolidateDiscs.LastDot | utilities/consolidate_discs.py:77 | the position of the last dot, or -1 when there is none |
| ConsolidateDiscs.Suffix | utilities/consolidate_discs.py:77 | a file's suffix ends its name, starts with its only dot, and is empty for a name that is all suffix |
| ConsolidateDiscs.Stem | utilities/consolidate_discs.py:196 | stem and suffix put together give the name back |
| ConsolidateDiscs.AudioInListing | utilities/consolidate_discs.py:75-77 | exactly the files whose lower-cased suffix is one of the five audio extensions, no more of them than the listing has |
| ConsolidateDiscs.InsertName | utilities/consolidate_discs.py:78 | putting a name into a sorted list keeps it sorted and adds exactly that name |
| ConsolidateDiscs.SortNames | utilities/consolidate_discs.py:78 | `sorted`: the result is sorted by code points and is a permutation of the input |
| ConsolidateDiscs.AudioFiles | utilities/consolidate_discs.py:73-78 | exactly the audio files of the folder, sorted by name: a sorted permutation of the audio files in listing order |
| ConsolidateDiscs.ExtractTrackNumber | utilities/consolidate_discs.py:81-87 | a track number is found only in a name starting with a digit |
| ConsolidateDiscs.TrackNumberRead | utilities/consolidate_discs.py:84-86 | a number followed by a blank, dot, hyphen or underscore is read back |
| ConsolidateDiscs.NoSeparatorNoTrack | utilities/consolidate_discs.py:84-87 | digits followed by any other character give no track number |
| ConsolidateDiscs.MakeSafeFilename | utilities/consolidate_discs.py:141-156 | the result has single inner spaces, no unsafe character, and only the name's characters or inserted blanks, hyphens and quotes |
| ConsolidateDiscs.Replaced | utilities/consolidate_discs.py:143-155 | no slash, backslash, colon or double quote survives; a name without unsafe characters is unchanged |
| ConsolidateDiscs.SafeNameUnchanged | utilities/consolidate_discs.py:141-156 | a tidy name without unsafe characters is kept as it is |
| ConsolidateDiscs.MakeSafeIdempotent | utilities/consolidate_discs.py:141-156 | making a name safe twice is making it safe once |
| ConsolidateDiscs.StripDiscTrack | utilities/consolidate_discs.py:263 | removing a `N-N` prefix leaves a suffix of the title |
| ConsolidateDiscs.StripNumber | utilities/consolidate_discs.py:264 | removing a number prefix leaves a suffix, and a title not starting with a digit is kept |
| ConsolidateDiscs.CleanTitle | utilities/consolidate_discs.py:262-266 | the cleaned title is a non-empty suffix of a non-empty title, and a title not starting with a digit is kept |
| ConsolidateDiscs.CleanTitleDropsNumber | utilities/consolidate_discs.py:264 | a number and blanks before a word are removed |
| ConsolidateDiscs.CleanTitleDropsDiscTrack | utilities/consolidate_discs.py:263-264 | a disc-track prefix and blanks before a word are removed |
| ConsolidateDiscs.TrackText | utilities/consolidate_discs.py:269 | the track text has at least two digits and the track number's value, 0 without one |
| ConsolidateDiscs.NameShape | utilities/consolidate_discs.py:270 | the name is the disc number, a hyphen, the track text, a blank, the title and the suffix |
| ConsolidateDiscs.DiscTrackOf | utilities/consolidate_discs.py:270 | a disc-track prefix is read only from a name starting with a digit |
| ConsolidateDiscs.DiscTrackRead | utilities/consolidate_discs.py:270 | the disc and track numbers are read back from `D-TT ` at the front of a name |
| ConsolidateDiscs.NewNameNumbers | utilities/consolidate_discs.py:268-270 | a consolidated name starts with its disc number and its track number, 0 when the file name had none |
| ConsolidateDiscs.TitleOf | utilities/consolidate_discs.py:260 | the title is the tag title when present and not empty, the file's stem otherwise |
| ConsolidateDiscs.DiscMoves | utilities/consolidate_discs.py:258-271 | one move per file of the disc |
| ConsolidateDiscs.DiscMovesAt | utilities/consolidate_discs.py:258-271 | each file of a disc is moved under the name it is given |
| ConsolidateDiscs.PlanLength | utilities/consolidate_discs.py:253-271 | the plan has one move per audio file of all discs |
| ConsolidateDiscs.TallyFrom | utilities/consolidate_discs.py:275-288 | each file counts once as moved or as an error; metadata updates never outnumber moves; a dry run counts every file as moved and adds no error |
| ConsolidateDiscs.TallyFromAppend | utilities/consolidate_discs.py:253-288 | counting two runs of moves one after the other is counting them together |
| ConsolidateDiscs.ErrorsAreFailedCopies | utilities/consolidate_discs.py:275-286 | outside a dry run no error is added exactly when every copy succeeds |
| ConsolidateDiscs.Previews | utilities/consolidate_discs.py:184-210 | one preview per disc folder |
| ConsolidateDiscs.PreviewsAt | utilities/consolidate_discs.py:184-210 | each disc's preview lists that disc's number, folder, track count and moves |
| ConsolidateDiscs.PreviewListsPlan | utilities/consolidate_discs.py:184-210 | the preview lists exactly the moves of the consolidation, in the same order (with the corrected preview names) |
| ConsolidateDiscs.Folders | utilities/consolidate_discs.py:292 | the original folders, in disc order |
| ConsolidateDiscs.PreviewConsolidation | utilities/consolidate_discs.py:159-212 | no disc folder gives the error result; otherwise the target is the album name, with the disc count, each disc's preview and the total of tracks |
| ConsolidateDiscs.PreviewPass | utilities/consolidate_discs.py:184-210 | the loop builds the previews and the track total |
| ConsolidateDiscs.ConsolidateAlbum | utilities/consolidate_discs.py:215-295 | no disc folder gives the error result; otherwise the counts are those of the plan, and the original folders are reported exactly when a real run had no error |
| ConsolidateDiscs.ConsolidatePass | utilities/consolidate_discs.py:253-288 | the loop over the discs counts the plan's moves |
| ConsolidateDiscs.DiscPass | utilities/consolidate_discs.py:258-288 | the loop over one disc's files counts that disc's moves |
| ConsolidateDiscs.PreviewNameDiffers | utilities/consolidate_discs.py:194-202 | as written, the preview names a file titled `01 Intro` differently from the name the consolidation gives it |
| ConsolidateMultidisc.DigitsStart | utilities/consolidate_multidisc.py:58-65 | the disc number of a pattern's tail starts at a digit |
| ConsolidateMultidisc.ShortestBase | utilities/consolidate_multidisc.py:59-64 | the lazy `(.+?)` takes the shortest base after which the rest of the pattern matches through to the end, and none is found exactly when no split matches |
| ConsolidateMultidisc.MatchPattern | utilities/consolidate_multidisc.py:73-76 | a matched base name is one line with no blanks at either end |
| ConsolidateMultidisc.ParseWith | utilities/consolidate_multidisc.py:72-94 | the first matching pattern decides the base name and disc number; none exactly when no pattern matches |
| ConsolidateMultidisc.ParseDiscFolder | utilities/consolidate_multidisc.py:58-94 | a folder is a disc folder exactly when one of the six patterns matches |
| ConsolidateMultidisc.NoDigitNoDisc | utilities/consolidate_multidisc.py:58-65 | a folder name without a digit is never a disc folder |
| ConsolidateMultidisc.NumberedNameParses | utilities/consolidate_multidisc.py:64 | any single-line name followed by a blank and a number parses as a disc folder |
| ConsolidateMultidisc.AudioFiles | utilities/consolidate_multidisc.py:81-82 | exactly the listed files ending in `.mp3`, `.m4a` or `.flac` in any letter case |
| ConsolidateMultidisc.EntryOf | utilities/consolidate_multidisc.py:73-92 | a folder is recorded exactly when it parses as a disc folder |
| ConsolidateMultidisc.Groups | utilities/consolidate_multidisc.py:67-94 | every recorded base name has at least one disc |
| ConsolidateMultidisc.GroupsMembers | utilities/consolidate_multidisc.py:67-94 | a disc is in the group of a base name exactly when the listing has a folder parsing to that base and disc |
| ConsolidateMultidisc.CompleteSets | utilities/consolidate_multidisc.py:100-105 | the complete sets are exactly the bases with more than one disc, each a permutation of its group sorted by disc number |
| ConsolidateMultidisc.OrphanedDiscs | utilities/consolidate_multidisc.py:106-107 | the orphaned discs are exactly the bases with one disc, holding that disc |
| ConsolidateMultidisc.Identify | utilities/consolidate_multidisc.py:31-113 | complete sets and orphaned discs are disjoint and together cover every recorded base |
| ConsolidateMultidisc.CollisionName | utilities/consolidate_multidisc.py:221 | the collision name ends with the file name and is longer than it |
| ConsolidateMultidisc.DiscTag | utilities/consolidate_multidisc.py:115-152 | a `disc/total` tag is written exactly for MP3 and M4A files |
| ConsolidateMultidisc.CopyStep | utilities/consolidate_multidisc.py:213-235 | one copy is appended to the manifest, under the collision name when its file name is already in the target, and the earlier copies are kept |
| ConsolidateMultidisc.CopyFiles | utilities/consolidate_multidisc.py:213-235 | one copy per audio file of a disc |
| ConsolidateMultidisc.CopyDiscsTargets | utilities/consolidate_multidisc.py:202-241 | the names in the target folder are exactly the targets of the manifest |
| ConsolidateMultidisc.TargetCount | utilities/consolidate_multidisc.py:230-235 | there are no more target names than copies, and as many only when no two copies share a target |
| ConsolidateMultidisc.ConsolidateAsWritten | utilities/consolidate_multidisc.py:154-267 | as written: a dry run succeeds; an existing target or a failed makedirs fails; otherwise success is only the copy count matching the scanned track total |
| ConsolidateMultidisc.OverwriteUndetected | utilities/consolidate_multidisc.py:217-247 | as written, three discs sharing a disc number and a file name give three copies onto two names and the call still succeeds |
| ConsolidateMultidisc.ThreeCopies | utilities/consolidate_multidisc.py:217-225 | the counterexample's three copies land on the file name and one collision name |
| ConsolidateMultidisc.Consolidate | utilities/consolidate_multidisc.py:154-267 | the corrected result: a dry run succeeds; an existing target or a failed makedirs fails; a success copies as many files as the scan counted, each onto its own name |
| ConsolidateMultidisc.TagsCarryDiscCount | utilities/consolidate_multidisc.py:173-228 | every tagged copy of a set carries its disc number and the set's disc count |
| ConsolidateMultidisc.CopyDiscsTotal | utilities/consolidate_multidisc.py:202-235 | every copy carries the tag of its file, disc and the given total |
| ConsolidateMultidisc.ConsolidateDiscs | utilities/consolidate_multidisc.py:154-267 | the loop's verdict is the corrected result; a dry run copies nothing; a success returns the manifest of all copies and copies the cover files `CoverCopies` names, a failure copies no cover |
| ConsolidateMultidisc.CoverFiles | utilities/consolidate_multidisc.py:251-252 | exactly the listed files whose lower-cased name is folder.jpg, cover.jpg, album.jpg or front.jpg |
| ConsolidateMultidisc.CoverPairs | utilities/consolidate_multidisc.py:254-256 | one (disc folder, file) copy per cover file, in order |
| ConsolidateMultidisc.CoverCopies | utilities/consolidate_multidisc.py:249-259 | no cover is copied exactly when no disc folder holds a cover file |
| ConsolidateMultidisc.CoverCopiesFirst | utilities/consolidate_multidisc.py:249-259 | the covers copied are all those of the first disc that has any, and only those (the loop breaks after it) |
| ConsolidateMultidisc.CopyDiscsFails | utilities/consolidate_multidisc.py:239-241 | once a disc folder fails, the whole consolidation fails |
| ConsolidateMultidisc.CopyPass | utilities/consolidate_multidisc.py:213-235 | the inner loop copies one disc's files as CopyFiles says |
| DiscConsolidator.KeywordStart | utilities/disc_consolidator.py:39-45 | where a pattern's keyword must start lies within the text after the base |
| DiscConsolidator.NumberStart | utilities/disc_consolidator.py:39-45 | the disc number after a keyword starts at a digit |
| DiscConsolidator.DigitsStart | utilities/disc_consolidator.py:39-45 | the disc number of a pattern's tail starts at a digit |
| DiscConsolidator.ShortestBase | utilities/disc_consolidator.py:39-45 | the lazy `(.+?)` takes the shortest base after which the rest of the pattern matches through to the end, and none is found exactly when no split matches |
| DiscConsolidator.MatchPattern | utilities/disc_consolidator.py:53-57 | a matched base name is one line with no blanks at either end |
| DiscConsolidator.ParseWith | utilities/disc_consolidator.py:52-58 | the first matching pattern decides; none exactly when no pattern matches |
| DiscConsolidator.ParseFolderName | utilities/disc_consolidator.py:50-58 | a folder parses exactly when one of the five patterns matches |
| DiscConsolidator.ParseCanonical | utilities/disc_consolidator.py:40-57 | `Album [Disc N]` parses back to the album and N, for any album name without a bracket, a line break or blanks at its ends |
| DiscConsolidator.FirstPatternDecides | utilities/disc_consolidator.py:52-57 | when the bracket pattern matches, its result is the parse |
| DiscConsolidator.DashPatternShadowed | utilities/disc_consolidator.py:42-44 | the dash pattern never decides: every name it matches is matched by the plain `Disc` pattern tried before it |
| DiscConsolidator.NoDigitNoDisc | utilities/disc_consolidator.py:39-45 | a name without a digit is not a disc folder |
| DiscConsolidator.InfoOf | utilities/disc_consolidator.py:71-82 | a folder is recorded exactly when it parses, with its base name, disc number and MP3 count |
| DiscConsolidator.Groups | utilities/disc_consolidator.py:71-86 | every recorded base name has at least one disc |
| DiscConsolidator.GroupsMembers | utilities/disc_consolidator.py:71-86 | a group holds exactly the disc folders of its base name |
| DiscConsolidator.MultiDiscSets | utilities/disc_consolidator.py:88-93 | the sets are exactly the groups of two or more folders, each a permutation of its group sorted by disc number |
| DiscConsolidator.SetsHaveTwoDiscs | utilities/disc_consolidator.py:88-93 | every set has at least two discs |
| DiscConsolidator.PrefixedName | utilities/disc_consolidator.py:133-137 | the new name always starts with digits and a dash; a name that already does is kept, any other gets the disc number and a dash in front |
| DiscConsolidator.MaxDisc | utilities/disc_consolidator.py:112 | the total is the highest disc number of the set |
| DiscConsolidator.DiscSteps | utilities/disc_consolidator.py:127-155 | one step per MP3 of the disc, each tagged with the target album and `disc/total` under a prefixed name |
| DiscConsolidator.Steps | utilities/disc_consolidator.py:127-155 | one step per MP3 of the set, each with the target album and a prefixed name |
| DiscConsolidator.TargetName | utilities/disc_consolidator.py:109 | the target folder when given and not empty, otherwise the album name |
| DiscConsolidator.Consolidate | utilities/disc_consolidator.py:97-171 | an empty set is skipped; a dry run previews; a raising move fails; otherwise every MP3 is moved to the target under a prefixed name and tagged with the highest disc number as total |
| DiscConsolidator.Returned | utilities/disc_consolidator.py:105-122 | false exactly for an empty set; no value exactly when the call raises |
| DiscConsolidator.TotalIsHighestNumber | utilities/disc_consolidator.py:112 | an illustration of `Consolidate`'s general total: discs numbered 1 and 3 are tagged as a set of three, the gap notwithstanding |
| DiscConsolidator.DiscConsolidator.constructor | utilities/disc_consolidator.py:47-48 | the consolidator starts with no disc sets |
| DiscConsolidator.DiscConsolidator.DetectMultiDisc | utilities/disc_consolidator.py:60-95 | the stored and returned sets are the multi-disc sets of the listing |
| DiscConsolidator.DiscConsolidator.ConsolidateAll | utilities/disc_consolidator.py:173-200 | every set found is consolidated or an error, never skipped; the errors are the sets whose moves raise, none in a dry run |
| DiscConsolidator.SetReturns | utilities/disc_consolidator.py:105-171 | a non-empty set returns true unless a real run raises |
| DiscConsolidator.ConsolidateOne | utilities/disc_consolidator.py:191-198 | one set's result is what consolidate returns for it |
| DiscConsolidator.ConsolidatePass | utilities/disc_consolidator.py:177-200 | the loop counts every set once as consolidated or as an error, the errors being the sets whose moves raise |
| Discogs.SplitTitle | sources/discogs.py:160-166 | a title without ` - ` is by Various Artists; otherwise artist, separator and album rebuild the title, split at the first separator |
| Discogs.SplitTitleJoin | sources/discogs.py:160-166 | splitting `artist - album` gives back the artist and album for an artist without a dash |
| Discogs.ParseDuration | sources/discogs.py:276-284 | a missing or empty duration, or one without a colon, has no length; a length comes only from exactly two colon-separated parts |
| Discogs.MinutesSeconds | sources/discogs.py:281-284 | a length needs exactly two parts |
| Discogs.ParseDurationOf | sources/discogs.py:276-284 | `M:SS` is (M * 60 + SS) * 1000 milliseconds |
| Discogs.MinutesSecondsOf | sources/discogs.py:282-284 | two integer parts give (minutes * 60 + seconds) * 1000 |
| Discogs.VocalIndex | sources/discogs.py:287-291 | the index of the first credit whose role is vocal, vocals or featuring, and -1 exactly when there is none |
| Discogs.FindVocalist | sources/discogs.py:286-291 | the loop finds the first vocal credit's name and stops there |
| Discogs.Kept | sources/discogs.py:271-273 | only entries of type `track` are kept, each from the tracklist |
| Discogs.KeptCount | sources/discogs.py:271-273 | the kept entries are exactly the tracks counted |
| Discogs.CountTracksSnoc | sources/discogs.py:271-273 | one more entry adds one exactly when it is a track |
| Discogs.ApiTracksPass | sources/discogs.py:270-299 | the tracks are the kept entries in order, numbered 1, 2, … without gaps and all on disc 1 |
| Discogs.PrimaryIndex | sources/discogs.py:302-306 | the index of the first primary image, -1 exactly when there is none |
| Discogs.CoverChoice | sources/discogs.py:301-308 | no images, no cover; the first primary image's address when it is set; otherwise the first image's |
| Discogs.ChooseCover | sources/discogs.py:301-308 | the loop picks the cover the rule above names |
| Discogs.GetAlbumWithApi | sources/discogs.py:254-326 | a release is returned exactly when the lookup answers, with confidence 1.0, its kept tracks numbered in order, the chosen cover and the first artist |
| Discogs.GetAlbumWithClient | sources/discogs.py:203-252 | a release is returned exactly when the id is an integer and the lookup answers; every track is numbered by position on disc 1, with the first image and first artist |
| Discogs.ClientQuery | sources/discogs.py:100-104 | the title alone for Various Artists, otherwise the artist, a blank and the title |
| Discogs.ClientMatch | sources/discogs.py:116-128 | a search result becomes a match with confidence 0.8, no tracks and its title split into artist and album |
| Discogs.ClientMatches | sources/discogs.py:111-133 | every match has confidence 0.8 and no tracks, at most one per result |
| Discogs.SearchWithClient | sources/discogs.py:78-134 | the query uses the cleaned title; at most 20 results are kept; a failed search gives no matches |
| Discogs.ClientPass | sources/discogs.py:111-133 | the loop stops after 20 results and converts each |
| Discogs.ApiMatch | sources/discogs.py:157-179 | a result becomes a match with confidence 0.8, its title split, and the cover image in preference to the thumbnail |
| Discogs.ApiParams | sources/discogs.py:139-146 | the query is the cleaned title with 20 per page; the artist is sent exactly when it is not Various Artists |
| Discogs.SearchWithApi | sources/discogs.py:136-181 | a failed request gives no matches; otherwise one match per result, in order |
| ExtractMetadata.MissingOf | utilities/extract_metadata.py:105-107 | no more fields are listed than are checked |
| ExtractMetadata.MissingOfIff | utilities/extract_metadata.py:105-107 | a field is listed exactly when it is checked and its value is empty |
| ExtractMetadata.MissingOfOrdered | utilities/extract_metadata.py:105-107 | the listed fields keep the order in which they are checked |
| ExtractMetadata.Extract | utilities/extract_metadata.py:43-113 | a file read without error keeps its tags and cover art and lists its empty checked fields; an exception keeps the tags read before it, drops the cover art and lists only `error_reading_file` with the message |
| ExtractMetadata.MissingPass | utilities/extract_metadata.py:105-107 | the loop appends exactly the empty checked fields, in order |
| ExtractMetadata.ExtractListsMissing | utilities/extract_metadata.py:104-107 | a file read without error lists a field exactly when it is one of artist, album, title and tracknumber and is empty |
| ExtractMetadata.ArtistKey | utilities/extract_metadata.py:136 | a record is filed under its artist when it has one, otherwise under `Unknown Artist` |
| ExtractMetadata.AlbumKey | utilities/extract_metadata.py:137 | a record is filed under its album when it has one, otherwise under `Unknown Album` |
| ExtractMetadata.TrackNumberOf | utilities/extract_metadata.py:163-171 | an empty track number stays empty |
| ExtractMetadata.TrackNumberOfCount | utilities/extract_metadata.py:165-169 | `N/M` reads as track N |
| ExtractMetadata.DigitsParse | utilities/extract_metadata.py:169 | a run of digits reads as its value |
| ExtractMetadata.InOwnGroup | utilities/extract_metadata.py:135-148 | every record belongs to the album it is filed under |
| ExtractMetadata.FirstWithIsFirst | utilities/extract_metadata.py:150-160 | cover art, date and genre are taken from the first record of the album that has one, and are absent when none has |
| ExtractMetadata.TracksOf | utilities/extract_metadata.py:173-178 | one track per record of the album, in record order |
| ExtractMetadata.ArtistsMembers | utilities/extract_metadata.py:139-140 | an artist key exists exactly when some record is filed under it |
| ExtractMetadata.AlbumsMembers | utilities/extract_metadata.py:142-148 | an album key exists under an artist exactly when some record is filed under both |
| Text.LexLessAsymmetric | utilities/extract_metadata.py:183-185 | the title comparison of the sort key is asymmetric |
| Text.LexLessTransitive | utilities/extract_metadata.py:183-185 | the title comparison is transitive |
| Text.LexLessTotal | utilities/extract_metadata.py:183-185 | any two distinct titles are ordered one way or the other |
| Text.NotLexLessTransitive | utilities/consolidate_discs.py:78 | "does not sort before" is transitive, which sorting file names relies on |
| ExtractMetadata.SortNumber | utilities/extract_metadata.py:184 | a track sorts by its number, a missing or zero number counting as 999 |
| ExtractMetadata.BeforeAsymmetric | utilities/extract_metadata.py:183-185 | the sort key (number, then title) orders two tracks at most one way |
| ExtractMetadata.NotBeforeTransitive | utilities/extract_metadata.py:183-185 | "not sorted before" is transitive, so the sort is well defined |
| ExtractMetadata.InsertTrack | utilities/extract_metadata.py:183-185 | inserting into a sorted list keeps it sorted and adds exactly the one track |
| ExtractMetadata.SortTracks | utilities/extract_metadata.py:183-185 | the tracks come out sorted by number then title, a permutation of the input |
| ExtractMetadata.SortTracksStable | utilities/extract_metadata.py:183-185 | tracks with equal number and title keep their order, as Python's stable sort does |
| ExtractMetadata.SortCollected | utilities/extract_metadata.py:180-187 | sorting every album of the collected library gives the returned library |
| ExtractMetadata.BuildStructured | utilities/extract_metadata.py:131-187 | the loops build exactly the library grouped by artist and album with sorted tracks |
| ExtractMetadata.CollectPass | utilities/extract_metadata.py:135-178 | the first loop files every record under its artist and album, in record order |
| ExtractMetadata.FileRecord | utilities/extract_metadata.py:136-178 | one record creates its artist and album when missing and adds its track and details; other albums are unchanged |
| ExtractMetadata.AddRecord | utilities/extract_metadata.py:150-178 | cover art, date and genre are set only when not yet set, and the track is appended |
| ExtractMetadata.StructuredKeys | utilities/extract_metadata.py:136-148 | the library has an artist, and an album under it, exactly when some record is filed there |
| ExtractMetadata.StructuredTracks | utilities/extract_metadata.py:173-185 | an album's tracks are a sorted permutation of its records' tracks, tied tracks in record order |
| ExtractMetadata.RecordHasTrack | utilities/extract_metadata.py:135-178 | every record's track appears in the album it is filed under |
| ExtractMetadata.StructuredDetails | utilities/extract_metadata.py:150-160 | an album's cover art, date and genre are those of its first record that has each |
| Fixer.CapLength | agents/fixer.py:268-270 | a name over 200 characters is cut to 200 and stripped; a shorter one is kept; the result stays tidy and uses only the name's characters |
| Fixer.MakeWindowsSafe | agents/fixer.py:255-272 | the result has none of the nine invalid characters (a colon only if the replacement has one), only blanks, characters of the name or of the replacement, single blanks, and at most 200 characters |
| Fixer.ReplaceAvoids | agents/fixer.py:561-575 | replacing a character by text free of it removes it for good |
| Fixer.ReplaceSeparators | agents/fixer.py:561-575 | after the four replacements no `/`, `\`, `:` or `"` remains |
| Fixer.MakeFilenameSafe | agents/fixer.py:551-584 | the result has no character a file name refuses, single blanks and at most 200 characters |
| Fixer.LastSlash | agents/fixer.py:217-218 | the index of the last `/`, -1 exactly when there is none |
| Fixer.BaseName | agents/fixer.py:218 | the name has no `/` and ends the path |
| Fixer.JoinPath | agents/fixer.py:227 | joining to an empty parent gives the name, to the root `/name`, otherwise `parent/name` |
| Fixer.JoinParentBase | agents/fixer.py:217-227 | a path is its parent joined with its name, unless it starts with `//` |
| Fixer.JoinPathSplits | agents/fixer.py:227 | a name without `/` joined to a parent has that name and that parent |
| Fixer.DefaultSettings | agents/fixer.py:66-70 | colon replaced by ` -`, paths of at most 250 characters, backups on into `D:/music_backup` |
| Fixer.RenameFolder | agents/fixer.py:203-253 | no change for an empty name, a safe name equal to the current one, an existing target or a path over the limit; otherwise the folder moves to its parent under the safe name, or the rename error is raised |
| Fixer.RenameStaysInParent | agents/fixer.py:217-250 | a rename keeps the folder in its parent under a new name that differs from the old |
| Fixer.EmbedCover | agents/fixer.py:274-335 | no change without a URL; a failed download raises; otherwise a cover change that names its URL and never moves the folder |
| Fixer.UpdateGenre | agents/fixer.py:402-439 | no change without a genre; otherwise a genre change with the count of files updated, never raising |
| Fixer.ApplyCorrection | agents/fixer.py:181-201 | a title correction of kind formatting_only or title_mismatch renames the folder; anything but a cover, a genre or such a title changes nothing; only a rename moves the folder |
| Fixer.Advance | agents/fixer.py:162-176 | one correction adds one change, one error or nothing; a raised error is recorded, and a move updates the current and the new path |
| Fixer.RunIsFold | agents/fixer.py:162-176 | the correction loop is a left fold of one correction's step |
| Fixer.FoldAppend | agents/fixer.py:162-176 | folding two lists of corrections is folding the second after the first |
| Fixer.RunAppend | agents/fixer.py:162-176 | running corrections in two parts gives the same result as running them all |
| Fixer.RunBounds | agents/fixer.py:159-178 | at most one change or error per correction; the current path is the last new path, or the album path when nothing moved |
| Fixer.UnknownCorrectionIgnored | agents/fixer.py:196-201 | a correction of any other field leaves the run unchanged |
| Fixer.WouldApply | agents/fixer.py:141-151 | a dry run plans one `would_apply` change per correction, with its type and field, in order |
| Fixer.PlanFixes | agents/fixer.py:143-149 | the loop plans exactly those changes |
| Fixer.ApplyFixes | agents/fixer.py:119-179 | a dry run succeeds with the planned changes and no backup; otherwise a backup is taken when enabled and the copy does not fail, the corrections run in order against the current path, and success means no error |
| Fixer.ChangeToDict | agents/fixer.py:145-149 | a change has its type, field and status; a planned one only those three with status `would_apply`, a made one six keys with status `applied`; `new_path` exactly for a rename |
| Fixer.ChangesToList | agents/fixer.py:41-49 | one dictionary per change, in order |
| Fixer.StrList | agents/fixer.py:41-49 | one string per error, in order |
| Fixer.ResultToDict | agents/fixer.py:41-49 | the six keys of `to_dict`, with the success flag, as many changes and errors as the result has, and `new_path` null exactly when nothing moved |
| Fixer.Process | agents/fixer.py:76-117 | no path is an error and no corrections a skip, neither saving state; otherwise the fixes run, the album's state is saved as FIXED or FIX_FAILED with the result, and the reported path is the new path when the folder moved |
| Fixer.TrackTextOf | agents/fixer.py:501-510 | the track number is read up to the first `/` |
| Fixer.WantedName | agents/fixer.py:512-524 | no name without a title; otherwise the track number padded to two digits (`00` when absent), a blank, the safe title and the suffix |
| Fixer.WantedNameOfTrack | agents/fixer.py:516-524 | track 7 titled T becomes `07 T.ext` |
| Fixer.SyncOne | agents/fixer.py:491-547 | one file is renamed, skipped or an error; a rename records the old and the wanted name, which differ and was not taken, and updates the listing |
| Fixer.SyncCounts | agents/fixer.py:484-549 | every file is counted once as renamed, skipped or an error, and every rename is recorded |
| Fixer.SyncRenamesChangeName | agents/fixer.py:527-543 | every recorded rename changes the file's name |
| Fixer.SyncFilenames | agents/fixer.py:463-549 | the loop over the sorted files gives the fold of the single-file step, and counts every file once |
| FolderValidator.MakeWindowsSafe | utilities/folder_validator.py:66-80 | the result has single blanks and no edge blanks, no colon and none of question mark, star, quote, angle brackets or bar, and only characters of the name, blanks and dashes |
| FolderValidator.MakeWindowsSafeIdempotent | utilities/folder_validator.py:66-80 | a safe name is its own safe form |
| FolderValidator.SliceEnd | utilities/folder_validator.py:102 | Python's `[:end]` never reaches past the string, a negative end counting from its end |
| FolderValidator.CategorizeIssue | utilities/folder_validator.py:95-119 | truncated exactly when the folder is shorter than the safe title and, but for its last three characters, a case-blind prefix of it; a substitution needs `_`, `é` or `à`; multi-disc needs a disc indicator in either name; a mismatch has neither |
| FolderValidator.LowerPrefix | utilities/folder_validator.py:102 | lower-casing keeps a prefix a prefix |
| FolderValidator.ProperPrefixLooksTruncated | utilities/folder_validator.py:100-103 | a proper prefix of the safe title passes the truncation test |
| FolderValidator.PrefixIsTruncated | utilities/folder_validator.py:97-103 | a folder named by a proper prefix of the safe title is categorized as truncated |
| FolderValidator.IssueOf | utilities/folder_validator.py:133-149 | a folder is an issue exactly when its album title is set and its name differs from the title's safe form; the issue records both names, the title and the category |
| FolderValidator.IssuesOf | utilities/folder_validator.py:133-151 | at most one issue per folder, each naming a folder whose name differs from the expected one |
| FolderValidator.FixIssue | utilities/folder_validator.py:153-178 | multi-disc issues and taken targets are skipped; a dry run succeeds without renaming; a rename replaces the folder's name by the expected one and happens only on a real run of a folder that exists |
| FolderValidator.TypeOrder | utilities/folder_validator.py:199-204 | every issue's type is listed once, in order of first appearance |
| FolderValidator.ByType | utilities/folder_validator.py:199-204 | a group holds only issues of its type |
| FolderValidator.AbsentTypeEmpty | utilities/folder_validator.py:199-204 | a type no issue has has no group |
| FolderValidator.GroupSizesSnoc | utilities/folder_validator.py:199-204 | one more issue adds one to the groups exactly when its type is among them |
| FolderValidator.GroupsCoverIssues | utilities/folder_validator.py:199-207 | the groups together hold every issue exactly once |
| FolderValidator.FixGroup | utilities/folder_validator.py:209-213 | every issue of a group is counted once as fixed or skipped |
| FolderValidator.FixGroups | utilities/folder_validator.py:207-213 | every issue in the groups is counted once as fixed or skipped |
| FolderValidator.FolderValidator.constructor | utilities/folder_validator.py:63-64 | a new validator has no issues |
| FolderValidator.FolderValidator.Scan | utilities/folder_validator.py:121-151 | the kept and returned issues are those of the listed folders, in order |
| FolderValidator.FolderValidator.FixAll | utilities/folder_validator.py:180-215 | the counts report the entries and issues; every issue is fixed or skipped, the errors stay zero, and the groups are fixed type by type in order of first appearance |
| FolderValidator.FixGroupsPass | utilities/folder_validator.py:207-213 | the loop over the types gives the fold over the groups |
| FolderValidator.FixGroupPass | utilities/folder_validator.py:209-213 | the loop over one group gives the fold over its issues |
| GenerateReviewCsv.ItemOf | utilities/generate_review_csv.py:19 | the item has an `id`, the entry's own when it has one and the queue key otherwise, and every other field of the entry unchanged |
| GenerateReviewCsv.Pending | utilities/generate_review_csv.py:18-22 | no more items than queue entries |
| GenerateReviewCsv.PendingExactly | utilities/generate_review_csv.py:18-22 | an item is pending exactly when it comes from an entry whose status is `needs_review` |
| GenerateReviewCsv.NoneInReview | utilities/generate_review_csv.py:18-22 | a queue without such entries gives no rows |
| GenerateReviewCsv.OrderedByConfidence | utilities/generate_review_csv.py:49 | the rows are the pending items, rearranged, in descending order of the metadata confidence (0 when absent) |
| GenerateReviewCsv.OrderedStable | utilities/generate_review_csv.py:49 | items of equal confidence keep their queue order, as Python's stable sort does |
| GenerateReviewCsv.ShortId | utilities/generate_review_csv.py:52 | the id column is the first twelve characters of the id, or all of a shorter one |
| GenerateReviewCsv.RowFlags | utilities/generate_review_csv.py:66-88 | `has_corrections` is Yes exactly when the validation has non-empty corrections; `not_found` is Yes exactly when `matched` is present and false; the decision and notes columns are empty |
| GenerateReviewCsv.RowConfidence | utilities/generate_review_csv.py:63-75 | the confidence is the metadata's, else the validation's, else 0; a float is shown as a rounded percentage, anything else as text |
| GenerateReviewCsv.RowId | utilities/generate_review_csv.py:19-52 | an entry without its own id shows the first twelve characters of its queue key |
| GenerateReviewCsv.GenerateReview | utilities/generate_review_csv.py:11-92 | one row per pending item, in the sorted order, each built from its item |
| GenerateReviewCsv.RowsAt | utilities/generate_review_csv.py:51-89 | row i is the row of item i, and there are as many rows as items |
| GenerateReviewCsv.UnmarkedRowKeeps | utilities/generate_review_csv.py:77-89 | a row returned unmarked reads back with its id and folder and leaves its album alone |
| GenerateReviewCsv.EmptyCell | utilities/generate_review_csv.py:86-87 | an empty decision cell is not a tick |
| GenerateReviewCsv.UnmarkedSheetChangesNothing | utilities/generate_review_csv.py:77-89 | feeding the generated sheet back unmarked changes no status and approves or rejects nothing |
| GenerateReviewCsv.NoDecisionLabels | utilities/generate_review_csv.py:86-87 | rows without a decision contribute no approved or rejected labels |
| MetadataSystem.TitledCount | orchestrator/music_metadata_system.py:1830 | the count of titled tracks never exceeds the number of tracks |
| MetadataSystem.TitledCountAll | orchestrator/music_metadata_system.py:1830-1831 | every track is titled exactly when the titled count equals the track count |
| MetadataSystem.CountPoints | orchestrator/music_metadata_system.py:1815-1819 | 20 points exactly for equal track counts, 10 exactly for counts that differ by one or two, none beyond |
| MetadataSystem.QualityScore | orchestrator/music_metadata_system.py:1807-1834 | the score is a multiple of 5 in [0, 100], and 50 when no source matched |
| MetadataSystem.PerfectScore | orchestrator/music_metadata_system.py:1815-1834 | a score of 100 exactly when a source matched, the counts agree, a match was listed, the album is titled and every one of at least one track is titled |
| MetadataSystem.NoSourceAtMostSeventy | orchestrator/music_metadata_system.py:1821-1823 | without a matched source the score is at most 70 |
| MetadataSystem.GradeOf | orchestrator/music_metadata_system.py:1836-1845 | excellent from 90, good in [80, 90), acceptable in [70, 80), poor below 70, each as an if-and-only-if |
| MetadataSystem.GradeMonotone | orchestrator/music_metadata_system.py:1836-1845 | a higher score never gets a lower grade |
| MetadataSystem.FindDiscrepancies | orchestrator/music_metadata_system.py:1847-1877 | nothing without a match; a track-count entry (critical, 90) exactly when the counts differ, an album-title entry (high, 80) exactly when both titles are non-empty and differ ignoring case |
| MetadataSystem.MatchCount | orchestrator/music_metadata_system.py:586 | the match's track count, or 0 without a match |
| MetadataSystem.ValidateAsWritten | orchestrator/music_metadata_system.py:582-590 | the validation as written fails exactly when no source matched, and otherwise agrees with Validate |
| MetadataSystem.Validate | orchestrator/music_metadata_system.py:556-590 | the validation carries the quality score, its grade, whether the counts match, review exactly below 70, and the discrepancies |
| MetadataSystem.NoMatchRaises | orchestrator/music_metadata_system.py:582-590 | with no match the code as written fails, while the intended validation scores 50 and asks for review |
| MetadataSystem.Resolve | orchestrator/music_metadata_system.py:621-628 | a discrepancy becomes UPDATE exactly at confidence 85 or more, REVIEW otherwise, keeping its field, values and confidence |
| MetadataSystem.ResolveConflicts | orchestrator/music_metadata_system.py:592-635 | one resolution per discrepancy, in order, when a source matched and none otherwise; resolved exactly when no review is required |
| MetadataSystem.DiscrepancyActions | orchestrator/music_metadata_system.py:1856-1875 | a track-count discrepancy is always applied and an album-title one always sent to review |
| MetadataSystem.CoveredCount | orchestrator/music_metadata_system.py:1296-1297 | the tracks with cover art never exceed the tracks |
| MetadataSystem.CoverSizes | orchestrator/music_metadata_system.py:1298-1299 | the recorded cover sizes are positive and no more than the covered tracks |
| MetadataSystem.SumOf | orchestrator/music_metadata_system.py:1308 | a non-empty list of positive sizes sums to at least its length |
| MetadataSystem.CoverCheckOf | orchestrator/music_metadata_system.py:1251-1316 | covered plus missing is the track total, and all tracks have cover exactly when none is missing and there is at least one |
| MetadataSystem.CheckCoverArt | orchestrator/music_metadata_system.py:1227-1316 | the loop computes exactly the cover check of the tracks |
| MetadataSystem.CoverPass | orchestrator/music_metadata_system.py:1251-1301 | the loop counts the tracks, the covered and the missing ones, and collects the sizes |
| MetadataSystem.CoveredCountAll | orchestrator/music_metadata_system.py:1296-1304 | every track covered exactly when the count is the total; none covered exactly when the count is 0 |
| MetadataSystem.SameSizeConsistent | orchestrator/music_metadata_system.py:1306-1311 | covers all of one positive size are consistent |
| MetadataSystem.SumOfSame | orchestrator/music_metadata_system.py:1308 | n copies of one size sum to n times it |
| MetadataSystem.ValidateCoverArt | orchestrator/music_metadata_system.py:1318-1367 | needs cover exactly when a track lacks it; missing, incomplete and valid each as an if-and-only-if; replacement exactly below 50000 bytes average; no issue exactly when nothing is missing, sizes agree or at most one cover exists, and quality is fine |
| MetadataSystem.CoverAdvice | orchestrator/music_metadata_system.py:1351-1361 | one recommendation for varying sizes and one for small covers |
| MetadataSystem.MissingIssue | orchestrator/music_metadata_system.py:1338-1348 | one issue exactly when a track lacks cover |
| MetadataSystem.CoverIssues | orchestrator/music_metadata_system.py:1351-1361 | one issue for varying sizes and one for small covers |
| MetadataSystem.CoverVerdict | orchestrator/music_metadata_system.py:1318-1348 | over the tracks themselves: cover is needed exactly when some track lacks it, and the status is missing exactly when there are tracks and none has cover |
| MetadataSystem.ProcessAlbum | orchestrator/music_metadata_system.py:258-376 | an error exactly when a step raised; otherwise a report with the quality score, success exactly from 70, review exactly when not successful, title and artist defaulting to the folder name and "Various Artists" |
| MetadataSystem.BucketOf | orchestrator/music_metadata_system.py:191-196 | success, review and failed buckets as process_path sorts results, each as an if-and-only-if |
| MetadataSystem.CountBucket | orchestrator/music_metadata_system.py:190-196 | a bucket never holds more results than there are |
| MetadataSystem.BucketsPartition | orchestrator/music_metadata_system.py:190-196 | the three buckets count every result exactly once |
| MetadataSystem.CountFailures | orchestrator/music_metadata_system.py:369-376 | the albums whose steps raised never exceed the albums |
| MetadataSystem.ProcessAll | orchestrator/music_metadata_system.py:181-188 | one result per album, in order, each the album's own result |
| MetadataSystem.FailedAreFailures | orchestrator/music_metadata_system.py:190-196 | the failed bucket counts exactly the albums whose steps raised |
| MetadataSystem.ProcessAlbumAsWritten | orchestrator/music_metadata_system.py:369-376 | as written, an unmatched album becomes an error result; every other album gets the intended report |
| MetadataSystem.ProcessAllAsWritten | orchestrator/music_metadata_system.py:181-188 | one result per album |
| MetadataSystem.CountUnmatched | orchestrator/music_metadata_system.py:582 | the unmatched albums never exceed the albums |
| MetadataSystem.AsWrittenFailsUnmatched | orchestrator/music_metadata_system.py:190-196 | as written, the failed count is the intended one plus the number of unmatched albums |
| MetadataSystem.UnmatchedCounted | orchestrator/music_metadata_system.py:582 | one unmatched album makes the unmatched count positive |
| MetadataSystem.ProcessPathFailsMoreAsWritten | orchestrator/music_metadata_system.py:169-196 | with an unmatched album among the kept ones, process_path as written reports strictly more failures than intended |
| MetadataSystem.InBand | orchestrator/music_metadata_system.py:1958-1961 | a band never holds more results than there are |
| MetadataSystem.DistributionTotal | orchestrator/music_metadata_system.py:1957-1962 | with scores in [0, 100] the four bands count every result exactly once |
| MetadataSystem.FilterAlbums | orchestrator/music_metadata_system.py:169-170 | kept albums come from the input and contain the filter ignoring case; an empty filter keeps all |
| MetadataSystem.MusicMetadataSystem.constructor | orchestrator/music_metadata_system.py:190-196 | counters start at zero and split the processed albums |
| MetadataSystem.MusicMetadataSystem.Tally | orchestrator/music_metadata_system.py:190-196 | one more processed album, counted in exactly its bucket; scores of 85 or more are kept |
| MetadataSystem.MusicMetadataSystem.ProcessKept | orchestrator/music_metadata_system.py:181-196 | the kept albums are processed in order and the counters grow by each bucket's count over those results |
| MetadataSystem.MusicMetadataSystem.ProcessPath | orchestrator/music_metadata_system.py:144-211 | a missing path or no kept album changes nothing; otherwise each counter grows by its bucket's count over the results and the summary reports those counts and the distribution |
| MusicNames.EmptyPairLen | orchestrator/music_metadata_system.py:762-765 | an empty bracket pair matched at the front opens and closes with that pair and fits in the text |
| MusicNames.SafeChars | orchestrator/music_metadata_system.py:748-760 | after the replacements no character a file name refuses remains |
| MusicNames.TidyEnd | orchestrator/music_metadata_system.py:767-769 | collapsing whitespace and dropping trailing dots and blanks leaves a tidy string of blanks and characters already there |
| MusicNames.MakeFilenameSafe | orchestrator/music_metadata_system.py:744-771 | the result has none of the nine characters a file name refuses (slash, backslash, colon, quote, angle brackets, bar, question mark, star), single blanks, no blank at either end, and at most 200 characters |
| MusicNames.DiscTrackDigits | orchestrator/music_metadata_system.py:1189 | the track digits of a leading "D-TT" are all digits |
| MusicNames.ExtractTrackFromFilename | orchestrator/music_metadata_system.py:1183-1202 | the patterns are tried in order: the track of a leading "D-TT" wins; otherwise leading digits followed by whitespace; otherwise the number of the first case-insensitive `Track\s*N`; otherwise 1 |
| MusicNames.TrackWordNumber | orchestrator/music_metadata_system.py:1192-1201 | when neither prefix pattern applies, the leftmost "Track N" anywhere in the name gives N |
| MusicNames.DefaultTrack | orchestrator/music_metadata_system.py:1189-1202 | a name that none of the three patterns matches gets track 1 |
| MusicNames.DigitsWithoutSeparator | orchestrator/music_metadata_system.py:1189-1202 | leading digits followed by neither whitespace nor a dash and digits ("01.mp3", "7-x.flac", "5abc"), with no "track", give track 1 |
| MusicNames.LastDot | orchestrator/music_metadata_system.py:1209 | the index of the last dot, with no dot after it, or -1 |
| MusicNames.Stem | orchestrator/music_metadata_system.py:1209 | the stem is a prefix of the name |
| MusicNames.ExtractTitleFromFilename | orchestrator/music_metadata_system.py:1204-1221 | the title is never longer than the file name |
| MusicNames.SyncedName | orchestrator/music_metadata_system.py:704-718 | no name exactly for an untitled file; otherwise "D-NN safe.ext" on a multi-disc album (more than one disc, or a disc above 1) and "NN safe.ext" otherwise, NN padded to two digits and "00" when missing |
| MusicNames.NameFormat | orchestrator/music_metadata_system.py:714-718 | the two layouts of a synced name |
| MusicNames.TrackOfSyncedName | orchestrator/music_metadata_system.py:1183-1202 | the track number written into a synced name is the one `_extract_track_from_filename` reads back |
| MusicNames.TitleSteps | orchestrator/music_metadata_system.py:1209-1221 | the title is the stem with the three prefix patterns removed in order, then stripped |
| MusicNames.TitleOfSyncedName | orchestrator/music_metadata_system.py:1204-1221 | the safe title written into a synced name is the one `_extract_title_from_filename` reads back, when it opens with no digit and no "track" and the extension is one suffix |
| MusicNames.UnderscoreSpaces | orchestrator/music_metadata_system.py:797 | a name without underscores is unchanged |
| MusicNames.UnderscoreCapitals | orchestrator/music_metadata_system.py:801 | a name without underscores is unchanged |
| MusicNames.StandardName | orchestrator/music_metadata_system.py:795-804 | the standard name is tidy, and a name without underscores only has its whitespace collapsed |
| MusicNames.DetectDisc | orchestrator/music_metadata_system.py:806-822 | a detected disc suffix starts inside the name |
| MusicNames.CleanAlbumName | orchestrator/music_metadata_system.py:815-822 | without a disc suffix the clean name is the standard name |
| MusicNames.DiscSuffixDetected | orchestrator/music_metadata_system.py:806-822 | "name Disc N" is detected as disc N of "name", and cleaning gives back "name" |
| MusicNames.StandardizeFolderName | orchestrator/music_metadata_system.py:773-865 | renamed exactly when the standard name differs, the target is free and the rename succeeds; the new name is then the standard one; the disc and clean name come from the standard name in every case |
| MusicNames.TidyNameKept | orchestrator/music_metadata_system.py:824-831 | a tidy name without underscores is never renamed |
| MusicNames.DiscTotal | orchestrator/music_metadata_system.py:893-896 | the disc total is the looked-up count or the disc number, and at least both |
| MusicNames.DiscFileName | orchestrator/music_metadata_system.py:931-933 | a file moved into a disc folder gets a name with no refused character, single blanks and at most 200 characters |
| MusicBrainz.SearchQuery | sources/musicbrainz.py:67-72 | the query opens with the release term, and is the compilation query exactly when the artist is "various artists" ignoring case |
| MusicBrainz.SearchMatch | sources/musicbrainz.py:93-113 | a search hit keeps the release's id and title, takes the first credited artist (or "Various Artists" without credits), scores the release score over 100 (within [0, 1] for scores in [0, 100]), and carries no tracks and no cover |
| MusicBrainz.SearchAlbum | sources/musicbrainz.py:49-115 | the query is built from the cleaned title; a failed request gives no match; otherwise one match per release, in order |
| MusicBrainz.ToTrack | sources/musicbrainz.py:157-171 | a track takes the recording's title (falling back to the track's), its position, the medium's disc, the recording's length and the recording's first credited artist |
| MusicBrainz.MediumTracks | sources/musicbrainz.py:155-171 | one track per entry of a medium, in order, on that medium's disc |
| MusicBrainz.TrackTotalSnoc | sources/musicbrainz.py:154-171 | one more medium adds its number of tracks |
| MusicBrainz.AllTracksCount | sources/musicbrainz.py:182 | the tracks collected over all media number the sum of their track counts |
| MusicBrainz.MediaPass | sources/musicbrainz.py:154-171 | the loop over media collects exactly the tracks of every medium, in order |
| MusicBrainz.GetAlbum | sources/musicbrainz.py:117-187 | a failed lookup gives nothing; otherwise the album has confidence 1.0, as many tracks as all media hold, sorted by (disc, track) as a permutation of the collected tracks, the first credited artist and the cover URL of the release |
| MusicBrainz.FrontIndex | sources/musicbrainz.py:207-208 | the index of the first front image, none before it, or -1 |
| MusicBrainz.BestSize | sources/musicbrainz.py:210-215 | the 1200 thumbnail if set, else the large one, else the image itself |
| MusicBrainz.CoverUrlOf | sources/musicbrainz.py:189-220 | a failed request, another status or no front image gives the front-1200 fallback URL; otherwise the best size of the first front image |
| MusicBrainz.GetCoverUrl | sources/musicbrainz.py:189-220 | the URL returned is the cover URL of the release for the archive's answer |
| MusicBrainz.NoFrontFallsBack | sources/musicbrainz.py:219-220 | an answer without a front image falls back to the direct URL |
| Orchestrator.ScanPriority | orchestrator/orchestrator.py:122 | HIGH exactly when the scan found issues, NORMAL exactly when it found none |
| Orchestrator.ScanMetadata | orchestrator/orchestrator.py:123-128 | the stored metadata holds exactly the title, artist, track count and cover flag of the scan |
| Orchestrator.ValidateMove | orchestrator/orchestrator.py:251-276 | an album moves exactly on an auto-approved, needs-review or not-found verdict: auto-approved to VALIDATED, the other two to NEEDS_REVIEW, each with the validation data and the confidence or the not-found flag; a rejected verdict or an error moves nothing |
| Orchestrator.ValidateErrorOf | orchestrator/orchestrator.py:277-281 | one error entry exactly for a failed validation, naming the album folder |
| Orchestrator.ValidateErrors | orchestrator/orchestrator.py:277-281 | the error list has one entry per failed validation |
| Orchestrator.Tallies | orchestrator/orchestrator.py:226-283 | the summary's error list is the failed validations' entries |
| Orchestrator.TalliesCount | orchestrator/orchestrator.py:251-281 | each verdict counter counts its verdicts, and validated counts every outcome that is not an error, rejected ones included |
| Orchestrator.BumpCounters | orchestrator/orchestrator.py:251-281 | one more item moves exactly the counter of its outcome |
| Orchestrator.VerdictsWithinValidated | orchestrator/orchestrator.py:251-276 | the three verdict counters together never exceed validated |
| Orchestrator.ValidateStatuses | orchestrator/orchestrator.py:251-276 | after validate, a failed or rejected album keeps its entry, an auto-approved one is VALIDATED, a needs-review or not-found one is NEEDS_REVIEW, and albums not pending are untouched |
| Orchestrator.FixSelection | orchestrator/orchestrator.py:312-315 | without an album id every ready item is kept; with one, exactly the ready items whose id equals it or starts with it |
| Orchestrator.FixSelectionIsPrefix | orchestrator/orchestrator.py:314-315 | selection by equal-or-prefix is selection by prefix |
| Orchestrator.FixMove | orchestrator/orchestrator.py:332-361 | an item without corrections becomes VERIFIED, even in dry run; with corrections it moves exactly on a successful or partial fix that is not a dry run, to FIXED with the fix result |
| Orchestrator.FixBump | orchestrator/orchestrator.py:346-361 | one more item keeps the dry-run flag |
| Orchestrator.FixTallies | orchestrator/orchestrator.py:320-364 | the summary carries the dry-run flag |
| Orchestrator.FixTalliesCount | orchestrator/orchestrator.py:335-361 | fixed counts the successful and partial fixes, the errors are the other items with corrections, and with the items without corrections they account for every selected item |
| Orchestrator.FixStatuses | orchestrator/orchestrator.py:335-361 | after fix, items without corrections are VERIFIED, repaired items are FIXED unless in dry run, and every other item keeps its entry |
| Orchestrator.MusicLibraryOrchestrator.constructor | orchestrator/orchestrator.py:36-53 | the orchestrator holds the given state store and queue |
| Orchestrator.MusicLibraryOrchestrator.ScanAlbum | orchestrator/orchestrator.py:104-131 | an empty path or an unreadable folder fails and changes nothing; a successful scan saves the album state and enqueues the album under its id as SCANNED with its priority and metadata, appending the id to the queue order only when it is new |
| Orchestrator.MusicLibraryOrchestrator.Validate | orchestrator/orchestrator.py:211-283 | the SCANNED albums in priority order are validated; none gives nothing_to_validate; the queue becomes the moves applied in order, and the summary their tallies |
| Orchestrator.MusicLibraryOrchestrator.ApplyMove | orchestrator/orchestrator.py:258-276 | one move applied to the queue |
| Orchestrator.MusicLibraryOrchestrator.ValidatePass | orchestrator/orchestrator.py:234-283 | the loop applies each pending album's move in order and tallies the outcomes |
| Orchestrator.MusicLibraryOrchestrator.Approve | orchestrator/orchestrator.py:291-293 | true exactly for a known id, which becomes APPROVED with nothing else changed; an unknown id changes nothing |
| Orchestrator.MusicLibraryOrchestrator.Reject | orchestrator/orchestrator.py:295-297 | true exactly for a known id, which becomes REJECTED with nothing else changed; an unknown id changes nothing |
| Orchestrator.MusicLibraryOrchestrator.Fix | orchestrator/orchestrator.py:301-364 | the ready items narrowed by the album id are fixed; none gives nothing_to_fix; the queue becomes the fix moves applied in order, and the summary their tallies |
| Orchestrator.MusicLibraryOrchestrator.FilterSelection | orchestrator/orchestrator.py:314-315 | the loop keeps exactly the selection |
| Orchestrator.MusicLibraryOrchestrator.FixPass | orchestrator/orchestrator.py:326-364 | the loop applies each item's fix move in order and tallies the outcomes |
| Orchestrator.MusicLibraryOrchestrator.HasAudio | orchestrator/orchestrator.py:391-397 | true exactly when the folder holds a file with one of the six audio extensions |
| ProcessReviewCsv.VerdictCases | utilities/process_review_csv.py:47-54 | approve exactly when the APPROVE mark is one of X, Y, YES, 1, TRUE; reject exactly when it is not but the REJECT mark is; unchanged otherwise |
| ProcessReviewCsv.Keys | utilities/process_review_csv.py:38 | the queue's keys, one per entry, in order |
| ProcessReviewCsv.FirstMatch | utilities/process_review_csv.py:37-41 | the first key that starts with the id, or none exactly when no key does |
| ProcessReviewCsv.FindFullId | utilities/process_review_csv.py:37-41 | the loop finds exactly the first key with that prefix |
| ProcessReviewCsv.FirstMatchAt | utilities/process_review_csv.py:38-41 | the first key with the prefix is the match, whatever follows it |
| ProcessReviewCsv.FirstMatchNone | utilities/process_review_csv.py:37-41 | no key with the prefix gives no match |
| ProcessReviewCsv.Target | utilities/process_review_csv.py:37-45 | a row resolves only to a non-empty key that starts with its id |
| ProcessReviewCsv.EmptyIdTakesFirst | utilities/process_review_csv.py:38-41 | an empty id resolves to the first key |
| ProcessReviewCsv.Labels | utilities/process_review_csv.py:47-54 | a list of names never holds more names than there are rows |
| ProcessReviewCsv.Resolved | utilities/process_review_csv.py:43-45 | the resolved rows never exceed the rows |
| ProcessReviewCsv.EveryResolvedRowCounted | utilities/process_review_csv.py:25-54 | approved plus rejected plus unchanged is the number of resolved rows |
| ProcessReviewCsv.LastDecisionWins | utilities/process_review_csv.py:47-52 | an album's final status is the one written by the last row that decided it |
| ProcessReviewCsv.UndecidedKept | utilities/process_review_csv.py:53-54 | an album no row decided keeps its status |
| ProcessReviewCsv.WithStatus | utilities/process_review_csv.py:48-51 | only the status field changes, and only when a status is written |
| ProcessReviewCsv.ReadSheet | utilities/process_review_csv.py:31-34 | one set of marks per sheet row, in order |
| ProcessReviewCsv.ProcessReview | utilities/process_review_csv.py:11-58 | the queue keeps its entries in order, each with only its final status written; the approved, rejected and unchanged lists are the resolved rows' names by verdict |
| ProcessReviewCsv.ReviewRow | utilities/process_review_csv.py:31-54 | one row processed extends every list and status by that row |
| ProcessReviewCsv.Decide | utilities/process_review_csv.py:47-54 | the verdict of the marks |
| ProcessReviewCsv.SetStatus | utilities/process_review_csv.py:48 | only the status of the resolved entry changes |
| Queue.ParseStatus | orchestrator/queue.py:15-26 | the status whose stored name is the given string, and none for a name no status has |
| Queue.StatusNamesDistinct | orchestrator/queue.py:15-26 | two statuses have the same stored name exactly when they are the same status |
| Queue.PriorityOf | orchestrator/queue.py:29-34 | `Priority(v)` exists exactly for 0..3 and has value `v`; any other value is the ValueError |
| Queue.SortByPriority | orchestrator/queue.py:131 | the sorted list is in descending priority and a permutation of the input |
| Queue.SortByPriorityStable | orchestrator/queue.py:131 | the sort is stable: every priority class keeps its input order |
| Queue.QueueManager.constructor | orchestrator/queue.py:43-46 | a new queue is empty and valid (ids in the dictionary and in the order agree, no duplicates) |
| Queue.QueueManager.ItemsWithStatus | orchestrator/queue.py:127-130 | only stored entries with the given status, each with its own id, no more than the ids given |
| Queue.QueueManager.GetByStatus | orchestrator/queue.py:125-131 | exactly the entries with the status (each present, none missing), in descending priority, ties in dictionary order |
| Queue.QueueManager.GetReviewQueue | orchestrator/queue.py:138-140 | the NEEDS_REVIEW list of `GetByStatus`: every NEEDS_REVIEW entry, highest priority first |
| Queue.QueueManager.GetReadyToFix | orchestrator/queue.py:142-146 | the VALIDATED list of `GetByStatus` followed by its APPROVED list: exactly the VALIDATED and APPROVED entries, every VALIDATED one before every APPROVED one |
| Queue.ReadyOrder | orchestrator/queue.py:142-146 | in a VALIDATED list followed by an APPROVED list, nothing after an APPROVED item is VALIDATED |
| Queue.QueueManager.Get | orchestrator/queue.py:111-115 | the entry with its id when the id is queued, else none |
| Queue.QueueManager.Add | orchestrator/queue.py:63-80 | the entry is set (status, priority, both timestamps, metadata or `{}`), a new id goes last in dictionary order, an existing one keeps its place |
| Queue.QueueManager.UpdateStatus | orchestrator/queue.py:82-99 | false and nothing changes for an unknown id; otherwise status and `updated_at` are set and the patch is merged over the metadata |
| Queue.QueueManager.UpdatePriority | orchestrator/queue.py:101-109 | false and nothing changes for an unknown id; otherwise only priority and `updated_at` change |
| Queue.QueueManager.Remove | orchestrator/queue.py:117-123 | true exactly when the id was queued; the entry leaves the dictionary and the order |
| Queue.PriorityForIssues | orchestrator/queue.py:183-191 | HIGH exactly from five issues, NORMAL exactly from two to four, LOW below two |
| Queue.QueueManager.SetPriorityByIssues | orchestrator/queue.py:183-192 | a queued album gets the priority for its issue count; an unknown id changes nothing |
| Queue.QueueManager.BulkAdd | orchestrator/queue.py:194-213 | the loop ends in exactly the entries, order and result of the batch fold: each album with an id and a path added as `add` does, the first out-of-range priority stopping the run |
| Queue.NewEntry | orchestrator/queue.py:73-80 | a batch album's entry has its path, status "discovered", its priority or NORMAL (1) when absent, both timestamps `now`, and `{}` as metadata |
| Queue.BulkCount | orchestrator/queue.py:201-211 | a completed batch returns the number of albums with both an id and a path |
| Queue.BulkStopsAt | orchestrator/queue.py:205-207 | the batch stops with the ValueError at the first addable album whose priority is outside 0..3, after adding exactly the albums before it |
| Queue.BulkCompletes | orchestrator/queue.py:201-213 | with no out-of-range priority among the addable albums the batch completes |
| Queue.AddedIds | orchestrator/queue.py:204-205 | every id the batch adds is non-empty |
| Queue.AddedIdsAt | orchestrator/queue.py:204-205 | an id is added by the batch exactly when some album with an id and a path carries it |
| Queue.BulkKeys | orchestrator/queue.py:201-208 | a completed batch adds exactly the batch's ids to the queue's keys and removes none |
| Queue.BulkKeeps | orchestrator/queue.py:201-208 | an id the batch does not add keeps its entry |
| Queue.BulkLastWins | orchestrator/queue.py:73-80 | an added id holds the entry of the last album that added it, as `add` overwrites |
| Queue.BulkOrder | orchestrator/queue.py:73-80 | the order keeps its ids in place, and only batch ids that were not yet queued are appended |
| Queue.QueueManager.Clear | orchestrator/queue.py:215-218 | the queue is empty |
| Queue.QueueManager.CountByStatus | orchestrator/queue.py:148-155 | a count for every status, equal to the number of entries stored under it |
| Queue.QueueManager.CountsPartition | orchestrator/queue.py:148-155 | the ten counts add up to the entries whose stored status is a known name, at most all entries |
| Queue.QueueManager.CountIsSetSize | orchestrator/queue.py:150-154 | counting along distinct ids equals the size of the set of ids stored under the status |
| Queue.QueueManager.CountsAreSizes | orchestrator/queue.py:148-155 | each status count is the number of queued ids stored under that status, whatever the order |
| Queue.QueueManager.GetStatistics | orchestrator/queue.py:157-181 | total is the queue size; pending scan, validation and review count DISCOVERED, SCANNED and NEEDS_REVIEW; pending fix VALIDATED plus APPROVED; completed VERIFIED plus FIXED; skipped REJECTED plus SKIPPED; failed FAILED; the figures sum to the known-status entries |
| Scanner.GetFirst | agents/scanner.py:474-478 | the first element of a non-empty list, nothing for an empty list, the value itself otherwise |
| Scanner.ParseTrackNumber | agents/scanner.py:480-500 | nothing for an empty value; a number is kept; a list gives its first element's number |
| Scanner.ParseTrackOfTotal | agents/scanner.py:493-498 | "N/M" parses as N |
| Scanner.ParseBeforeSlash | agents/scanner.py:493-498 | a text with a slash parses as its part before the slash |
| Scanner.TextTrackNumber | agents/scanner.py:491-500 | a text parses as the integer before its first slash, or as the whole text without one |
| Scanner.ParseTrackOfNonNumeric | agents/scanner.py:497-500 | a text without digits parses as nothing |
| Scanner.TrackIssues | agents/scanner.py:461-472 | missing_title exactly without a title, missing_artist exactly without artist and album artist, missing_track_number exactly without a track number, each at most once |
| Scanner.IssueNames | agents/scanner.py:461-472 | one name per issue |
| Scanner.TrackOf | agents/scanner.py:279-307 | a track keeps its path and file name; a failed read gives one read_error issue and no cover, a successful one the track issues and the tag's cover flag |
| Scanner.MaxDisc | agents/scanner.py:403-405 | the largest disc number present, or none exactly when there is none |
| Scanner.DetectMultiDisc | agents/scanner.py:401-406 | multi-disc exactly when more than one distinct non-zero disc number exists, with the largest as count; otherwise (false, 1) |
| Scanner.ArtistNames | agents/scanner.py:68 | at most one artist name per track |
| Scanner.AlbumTags | agents/scanner.py:77 | exactly the non-empty album tags of the tracks |
| Scanner.BestIndex | agents/scanner.py:70-71 | the index of the earliest most frequent element |
| Scanner.MostCommon | agents/scanner.py:70-71 | the result occurs at least as often as any element, and no element of equal count comes before its first occurrence |
| Scanner.Artist | agents/scanner.py:65-72 | none exactly when no track names an artist; otherwise one of the names |
| Scanner.Title | agents/scanner.py:74-81 | the folder name when no track has an album tag; otherwise a most frequent album tag |
| Scanner.Year | agents/scanner.py:83-89 | the first non-empty year of the tracks, or none when none has one |
| Scanner.TrackNumbers | agents/scanner.py:447 | exactly the non-zero track numbers of the tracks |
| Scanner.MaxOf | agents/scanner.py:449 | the largest of the numbers |
| Scanner.MissingNumbers | agents/scanner.py:447-451 | exactly the numbers from 1 to the largest track number that are absent |
| Scanner.RankedAppend | agents/scanner.py:408-459 | appending an issue of higher rank keeps the check order |
| Scanner.IdentifyIssues | agents/scanner.py:408-459 | missing_cover, truncated_name, inconsistent_album, missing_genre and missing_tracks each present exactly when its check fails, in the order of the checks |
| Scanner.FlagIssues | agents/scanner.py:408-459 | each issue present exactly when its flag is set, in check order |
| Scanner.AppendIf | agents/scanner.py:413-457 | the issue is added exactly when its check failed, keeping the check order |
| Scanner.RankedUnique | agents/scanner.py:408-459 | two issue lists in check order with the same issues are equal |
| Scanner.IssuesFitUnique | agents/scanner.py:408-459 | the issues of an album are determined by the album |
| Scanner.FlagsUnique | agents/scanner.py:408-459 | the issues are determined by the five checks |
| Scanner.Suffix | agents/scanner.py:275 | a suffix is empty or a dot-led ending of the name shorter than it |
| Scanner.LastDot | agents/scanner.py:275 | the index of the last dot, with no dot after it, or -1 |
| Scanner.AudioPaths | agents/scanner.py:271-277 | never more audio paths than directory entries |
| Scanner.FindAudioFiles | agents/scanner.py:271-277 | the loop collects exactly the audio paths, each a file of the folder with an audio extension |
| Scanner.AudioPathsFrom | agents/scanner.py:274-276 | every collected path is a file of the folder with an audio extension |
| Scanner.FolderCover | agents/scanner.py:393-399 | the first cover file name, in the given order, that exists in the folder; none exactly when none does |
| Scanner.CheckFolderCover | agents/scanner.py:393-399 | the loop finds the first existing cover file |
| Scanner.FirstInFolder | agents/scanner.py:395-398 | the loop finds the first name that exists in the folder |
| Scanner.ScanAlbum | agents/scanner.py:178-222 | the album gets the path's id and one track per file in order; the folder cover wins as cover source, else the first track with embedded art makes it "embedded"; disc fields and issues follow their rules |
| Scanner.ReadTracks | agents/scanner.py:207-214 | one track per file in order, with the cover bookkeeping of the loop |
| Scanner.Process | agents/scanner.py:140-176 | an empty path or an unreadable folder fails with its message and saves nothing; otherwise the scan of the sorted audio files is saved as SCANNED under the album id and its counts are reported |
| Scanner.TrackToDict | agents/scanner.py:107-115 | a track record has exactly the seven keys of the source; the filename is carried over, a missing title or track number becomes `null`, and there is one issue string per track issue |
| Scanner.IssueToDict | agents/scanner.py:414-456 | an issue record has exactly the keys type, severity and message; the type is the check's name, the severity is "low" exactly for a truncated name or a missing genre and "medium" otherwise, and the truncated-name message ends with the folder name |
| Scanner.AlbumToDict | agents/scanner.py:86-118 | the record's issue list is the issue records in order and its track list is the track records in order (`IssuesToList` and `TracksToList` give one record per element) |
| Scanner.AlbumToDictKeys | agents/scanner.py:88-117 | an album record has exactly the thirteen keys of the source |
| Scanner.IssuesToList | agents/scanner.py:105 | one issue record per issue, in order |
| Scanner.TracksToList | agents/scanner.py:106-117 | one track record per track, in order |
| SourceBase.NewTrack | sources/base.py:15-22 | a new track has the given title and number, disc 1 and no duration, artist or ISRC |
| SourceBase.NewMatch | sources/base.py:25-37 | a new match has the given source, id, title and artist, no year, no tracks, no cover and confidence 0 |
| SourceBase.TrackToDict | sources/base.py:49-55 | a track's dictionary has exactly the five keys with the track's title, number and disc |
| SourceBase.TracksToList | sources/base.py:48-57 | one dictionary per track, in order |
| SourceBase.ToDict | sources/base.py:39-60 | the dictionary has exactly the nine keys, the match's title, artist, count and confidence, one track entry per track in order, and null for a missing year or cover exactly |
| SourceBase.ExtractYear | sources/base.py:138-145 | nothing for a missing date or one shorter than four characters; a year is the integer of the first four characters |
| SourceBase.ExtractYearOfDate | sources/base.py:138-145 | a date that opens with a four-digit year gives that year |
| SourceBase.CoverUrlOf | sources/base.py:117-128 | no album gives no URL; otherwise the album's cover URL |
| SourceBase.RateLimiter.constructor | sources/base.py:74-82 | the limiter keeps the interval and has no request stamp yet |
| SourceBase.RateLimiter.Wait | sources/base.py:130-136 | no sleep before the first request or once the interval has passed; otherwise the rest of the interval; the stamp becomes the time after the sleep |
| SourceCommon.LeadArtist | sources/musicbrainz.py:95-99 | "Various Artists" without credits; otherwise the first credit's name, or the fallback when it has none |
| SourceCommon.MapPass | sources/musicbrainz.py:93-113 | the loop maps every element, in order |
| SourceCommon.EditionMarkerLen | sources/musicbrainz.py:288 | an edition marker fits in the text and opens with a bracket |
| SourceCommon.CleanTitle | sources/musicbrainz.py:272-293 | the cleaned title has no underscore, single blanks and no edge blanks, and only blanks and characters of the title |
| SourceCommon.MarkerNeedsDigit | sources/musicbrainz.py:285 | a disc indicator holds a digit |
| SourceCommon.NoDigitNoIndicator | sources/musicbrainz.py:285 | a title without digits has no disc indicator |
| SourceCommon.CleanPlainTitle | sources/musicbrainz.py:281-293 | a tidy title without underscores, brackets or digits is already clean |
| SourceCommon.DiscMarkerOfSuffix | sources/musicbrainz.py:285 | " Disc N" is one disc indicator of its whole length |
| SourceCommon.DiscIndicatorDropped | sources/musicbrainz.py:281-293 | the clean title of "name Disc N" keeps only blanks and characters of the name |
| SourceCommon.WithConfidence | sources/spotify.py:135 | the matches of one confidence, in order |
| SourceCommon.InsertByConfidence | sources/spotify.py:135 | inserting into a list sorted by descending confidence keeps it sorted and adds exactly the element |
| SourceCommon.InsertByConfidenceClasses | sources/spotify.py:135 | insertion keeps the order of matches of equal confidence |
| SourceCommon.SortByConfidence | sources/spotify.py:135 | the result is sorted by descending confidence and a permutation of the input |
| SourceCommon.SortByConfidenceStable | sources/spotify.py:135 | matches of equal confidence keep their input order |
| SourceCommon.AtPosition | sources/spotify.py:192 | the tracks at one (disc, track) position, in order |
| SourceCommon.InsertTrack | sources/spotify.py:192 | inserting into a list sorted by (disc, track) keeps it sorted and adds exactly the element |
| SourceCommon.InsertTrackClasses | sources/spotify.py:192 | insertion keeps the order of tracks at the same position |
| SourceCommon.SortTracks | sources/spotify.py:192 | the result is sorted by (disc, track) and a permutation of the input |
| SourceCommon.SortTracksStable | sources/spotify.py:192 | tracks at the same position keep their input order |
| Spotify.Overlap | sources/spotify.py:298-308 | the character-overlap score lies in [0, 0.8] |
| Spotify.Confidence | sources/spotify.py:280-308 | the confidence lies in [0, 1], is 1 exactly when the lowered, stripped titles are equal, and at most 0.95 otherwise |
| Spotify.Score | sources/spotify.py:289-308 | 1 exactly for equal titles, at most 0.95 otherwise, and at most 0.8 when neither contains the other |
| Spotify.LengthRatio | sources/spotify.py:293-296 | the containment score lies in [0, 0.95] |
| Spotify.ConfidenceSymmetric | sources/spotify.py:280-308 | the confidence does not depend on the order of the two titles |
| Spotify.ScoreSymmetric | sources/spotify.py:289-308 | the score of normalized titles is symmetric |
| Spotify.LengthRatioSymmetric | sources/spotify.py:293-296 | the containment score is symmetric |
| Spotify.OverlapSymmetric | sources/spotify.py:298-308 | the overlap score is symmetric |
| Spotify.ContainedScore | sources/spotify.py:293-296 | a query contained in the result scores its length over the result's, times 0.95 |
| Spotify.SearchQuery | sources/spotify.py:93-97 | the query opens with the album term, and is the album term alone exactly when the artist is "various artists" ignoring case |
| Spotify.ToMatch | sources/spotify.py:108-132 | a search hit keeps the album's id and name, the first artist's name (or "Various Artists" without artists), the total track count, no tracks, and the confidence of the cleaned title against the name |
| Spotify.Matches | sources/spotify.py:105-132 | one match per album, in order |
| Spotify.SearchAlbum | sources/spotify.py:77-135 | the query comes from the cleaned title; a failed search gives no match; otherwise the matches sorted by descending confidence, a permutation of one match per album |
| Spotify.MatchesPass | sources/spotify.py:108-132 | the loop builds exactly the matches |
| Spotify.ToTrack | sources/spotify.py:165-183 | a track keeps the item's name, number (default 0), disc (default 1), duration and ISRC, and the first artist |
| Spotify.Tracks | sources/spotify.py:164-183 | one track per item, in order |
| Spotify.GetAlbum | sources/spotify.py:137-196 | a failed lookup gives nothing; otherwise confidence 1.0, one track per item sorted by (disc, track) as a permutation, the first artist and the first image as cover |
| Spotify.TracksPass | sources/spotify.py:164-183 | the loop builds exactly the tracks |
| State.AlbumId | orchestrator/state.py:29-31 | the id is the first 12 characters of the path's md5 digest, so equal paths get equal ids |
| State.SavedRecord | orchestrator/state.py:49-79 | the status and `updated_at` are set and the phase named by the lower-cased status holds the new data; an existing record keeps its id, path, creation time and every other phase; a new record has the path's id, the path and only that phase |
| State.SaveTwice | orchestrator/state.py:49-79 | saving the same status and data twice leaves the same status, phase result, phase set, creation time and path as saving once |
| State.NewSession | orchestrator/state.py:124-153 | a new session has status "new", no library root, and a statistics object with zero errors and the processed and pending counters |
| State.Counters | orchestrator/state.py:137-150 | a counter object has exactly the named keys, each zero |
| State.SetPath | orchestrator/state.py:162-166 | after the walk the value sits at the key path; the top level gains at most the first part and its other keys are untouched; the walk raises exactly when an existing intermediate value is not an object |
| State.UpdateStat | orchestrator/state.py:159-169 | a plain key sets that statistic; a dotted key sets the value at its split path; no other top-level statistic changes |
| State.PlainKeyUpdate | orchestrator/state.py:167-169 | a plain key never raises, sets its own statistic and leaves every other statistic as it was |
| State.TwoPartKeyUpdate | orchestrator/state.py:162-166 | `a.b` creates `a` when absent and sets `a.b` without touching the other members of `a` or other statistics |
| State.StateStore.constructor | orchestrator/state.py:21-27 | a new store has no album records, no session, an empty ledger and no checkpoints |
| State.StateStore.GetAlbumState | orchestrator/state.py:35-47 | the record stored under the path's id, absent exactly when none is stored |
| State.StateStore.GetAlbumStatus | orchestrator/state.py:81-84 | the stored record's status, absent exactly when the path was never saved |
| State.StateStore.ListAlbumsByStatus | orchestrator/state.py:86-101 | exactly the stored records with that status |
| State.StateStore.SaveAlbumState | orchestrator/state.py:49-79 | only the path's record changes, to the saved record; afterwards the path's status is the one saved |
| State.StateStore.GetSession | orchestrator/state.py:103-114 | the stored session if there is one, else a new session |
| State.StateStore.SaveSession | orchestrator/state.py:116-122 | the stored session is the given one with `last_checkpoint` stamped |
| State.StateStore.UpdateSessionStats | orchestrator/state.py:155-172 | succeeds exactly when the session has a statistics object and no update raises; then the statistics are the updated ones and the session is saved, else nothing is stored |
| State.StateStore.CreateCheckpoint | orchestrator/state.py:174-190 | one checkpoint is added under its id with the current session and the number of album records |
| State.StateStore.LogError | orchestrator/state.py:212-241 | the ledger gains exactly one entry with the path's id; the session's error count becomes the ledger length, unless the session has no statistics object (then the original raises after writing the ledger) |
| State.StateStore.GetErrors | orchestrator/state.py:243-254 | the whole ledger, entries in the order `LogError` appended them; a store that never logged (absent file) gives the empty ledger |
| State.StateStore.ClearErrors | orchestrator/state.py:256-260 | the ledger is empty |
| Transitions.Moved | orchestrator/queue.py:82-99 | a move sets the status and the update time and merges the patch over the metadata, patch keys winning; path, priority and creation time are kept; no move keeps the entry |
| Transitions.MovedTwice | orchestrator/queue.py:82-99 | applying the same status update twice is applying it once |
| Transitions.Step | orchestrator/queue.py:82-99 | one item's move never adds or removes a queue id |
| Transitions.ApplyMoves | orchestrator/main.py:227-306 | a pass of moves never adds or removes a queue id |
| Transitions.ApplyMovesStep | orchestrator/main.py:227-306 | the queue after k+1 items is the queue after k items with one more move |
| Transitions.ApplyMovesEffect | orchestrator/main.py:227-306 | after the pass every listed item carries its own move and every other entry is unchanged |
| Transitions.Count | orchestrator/main.py:221-225 | a counter never exceeds the number of items |
| Transitions.CountStep | orchestrator/main.py:221-301 | each item adds one to exactly its own counter |
| Transitions.SelectByPrefix | orchestrator/main.py:436-438 | `--album` keeps exactly the ready items whose id starts with the prefix |
| Transitions.TextOr | orchestrator/main.py:238-239 | `metadata.get(key) or fallback` yields a non-empty stored text, otherwise the fallback |
| Transitions.ValidationInput | orchestrator/main.py:235-242 | the validation input keeps the path and id; the title falls back to the folder name and the artist to "Various Artists" |
| Transitions.HasAudioFiles | orchestrator/main.py:183-189 | true exactly when the folder holds a file with an audio extension |
| ValidateVariousArtists.NormalizedLocal | utilities/validate_various_artists.py:269-272 | the normalized folder name is a prefix of the lowered, stripped name |
| ValidateVariousArtists.CoverStatusOf | utilities/validate_various_artists.py:286-293 | ok exactly when a track has embedded art or the folder has a cover; available online exactly when neither and MusicBrainz has cover art; never unknown |
| ValidateVariousArtists.CompareAlbums | utilities/validate_various_artists.py:225-300 | without a release: no matches, attention needed, the not-found error and unknown cover; with one: the correct title and id, title match by equality or containment of the normalized titles, track-count match by equality, and attention exactly when a title, count or cover check fails |
| ValidateVariousArtists.SameNameMatches | utilities/validate_various_artists.py:269-277 | a folder named like the release matches its title |
| ValidateVariousArtists.PerfectMatch | utilities/validate_various_artists.py:295-298 | a same-named album with the same track count and a cover needs no attention |
| ValidateVariousArtists.Entry | utilities/validate_various_artists.py:383-393 | the entry carries the folder name, and a failed validation needs attention with its error |
| ValidateVariousArtists.Count | utilities/validate_various_artists.py:399-403 | a count never exceeds the results |
| ValidateVariousArtists.CountMonotone | utilities/validate_various_artists.py:399-403 | a predicate implied by another counts at least as many results |
| ValidateVariousArtists.EntryFlagged | utilities/validate_various_artists.py:383-393 | every entry that flags a mismatch or a missing cover needs attention |
| ValidateVariousArtists.Entries | utilities/validate_various_artists.py:379-393 | one entry per folder, in order |
| ValidateVariousArtists.ValidateAllAlbums | utilities/validate_various_artists.py:355-432 | one entry per folder; the total is the folder count; the attention count is at most the total and at least each of the title, track and cover counts |
| ValidateVariousArtists.CompareAll | utilities/validate_various_artists.py:379-393 | the loop compares every folder, in order |
| ValidateVariousArtists.SummaryBounds | utilities/validate_various_artists.py:399-422 | when every entry is consistent, needs attention is at most the total and bounds each mismatch count |
| Validator.NormalizeString | agents/validator.py:379-409 | the normal form has no capital letter and none of underscore, dash, colon, apostrophe or quote, with single blanks and no edge blanks |
| Validator.Tidied | agents/validator.py:406-409 | collapsing whitespace keeps the characters clean and leaves single blanks |
| Validator.Unpunctuated | agents/validator.py:384-392 | after lowering and the five replacements every character is clean |
| Validator.WithoutMarkers | agents/validator.py:394-404 | removing edition, remaster, disc and volume markers only removes characters |
| Validator.NormalizeIgnoresCase | agents/validator.py:384-385 | titles equal ignoring case have the same normal form |
| Validator.CutBracketSuffix | agents/validator.py:420 | the title is unchanged or loses a trailing bracketed part, and only its characters remain |
| Validator.CleanTitleForSearch | agents/validator.py:411-422 | the search title has no underscore and no blank at either end |
| Validator.TitleSimilarity | agents/validator.py:325-339 | 0 when either title is empty, 1 when the normal forms agree, the ratio of the normal forms otherwise, within [0, 1] for a ratio within [0, 1] |
| Validator.ArtistSimilarity | agents/validator.py:341-357 | 0 when either artist is empty, 1 when both normal forms contain "various" or agree, within [0, 1] for a ratio within [0, 1] |
| Validator.TrackCountScore | agents/validator.py:359-377 | 0.5 when either count is 0, 1 for equal counts, 0.9 within two, 0.7 within five, always in [0, 1] |
| Validator.TrackCountScoreFar | agents/validator.py:372-377 | beyond five apart the score is max(0, 1 - difference / larger count), below 1 |
| Validator.TrackCountScoreSymmetric | agents/validator.py:359-377 | the score does not depend on the order of the counts |
| Validator.Confidence | agents/validator.py:295-323 | the confidence is 0.5 title + 0.3 artist + 0.2 track score, within [0, 1] |
| Validator.ConfidenceOfIdentical | agents/validator.py:295-323 | an album compared with itself scores 1 |
| Validator.FindBestMatch | agents/validator.py:261-293 | the best score bounds every candidate's; no match exactly when no candidate scores above 0, then score 0; otherwise the earliest candidate with the best score |
| Validator.KindOf | agents/validator.py:442-457 | a correction type name maps to its kind and back; other exactly for unknown names |
| Validator.TitleCorrection | agents/validator.py:436-452 | a title correction is formatting-only exactly when the titles agree once lowered and stripped of underscore, dash, colon and brackets, a title mismatch otherwise, and safe exactly when formatting-only |
| Validator.IdentifyCorrections | agents/validator.py:424-464 | a title correction exactly when the normal forms differ, first; a safe cover correction exactly when the album lacks a cover and one is available, last; safe exactly for formatting-only and cover corrections |
| Validator.NoTitleCorrectionForCase | agents/validator.py:436 | titles that differ only in case get no title correction |
| Validator.Classify | agents/validator.py:249-255 | auto-approved exactly from the auto threshold, needs review exactly between the thresholds, rejected exactly below both |
| Validator.NewResult | agents/validator.py:186-192 | a fresh result is unmatched, pending, with no corrections and confidence 0 |
| Validator.CoverOf | agents/validator.py:230-238 | a match's own cover URL wins; a MusicBrainz match without one uses the archive; other sources give none |
| Validator.Candidates | agents/validator.py:198-204 | the MusicBrainz results when there are any, else the iTunes results |
| Validator.Matched | agents/validator.py:215-255 | a matched result keeps the local fields and carries the confidence |
| Validator.ValidateAlbum | agents/validator.py:163-259 | matched exactly when some candidate scores above 0; otherwise a not-found fresh result; when matched, the earliest best candidate fills the result |
| Validator.ValidateVerdict | agents/validator.py:249-255 | a matched result has the verdict of its confidence against the thresholds, and at most two corrections |
| Validator.CorrectionToDict | agents/validator.py:446-462 | a correction's dictionary has exactly five keys with its type name and safe flag |
| Validator.CorrectionsToList | agents/validator.py:77 | one dictionary per correction, in order |
| Validator.ResultToDict | agents/validator.py:56-78 | the dictionary carries the status name, matched flag, confidence and one entry per correction |
| Validator.Process | agents/validator.py:110-161 | an empty path fails and saves nothing; otherwise the title falls back to the folder name and the artist to "Various Artists", and the result is saved as VALIDATED under the album id |

## Left out

- Text.Lower, Text.Upper: fold only ASCII and Latin-1 letters. Python's `str.lower()` and `str.upper()` fold all of Unicode, so "АЛЬБОМ" and "альбом" compare equal in the program but not in the model. Every case-insensitive comparison inherits this restriction.
- Text.IsDigit, Text.ParseInt: recognise only the ASCII digits, and `Text.ParseInt` rejects underscores. Python's `\d` and `int()` accept every Unicode decimal digit, and `int("1_0")` is 10.
- Fixer.BaseName, Fixer.Parent: split paths on '/' only, as `pathlib` does on POSIX systems. Windows separators and drive letters are not modelled.
- GenerateReviewCsv.GenerateReview: requires every pending entry's metadata to have the shapes the row builder reads (`Readable`). On other entries the program raises TypeError or AttributeError; that error path is not modelled.
- DiscConsolidator.Consolidate: covers the per-file moves and tag updates. It leaves out the move of `folder.jpg` into the new folder and the removal of the emptied disc folders (utilities/disc_consolidator.py:157-168), both of which happen after the tracks are moved.
- Scanner.IssueToDict: the messages of the inconsistent-album and missing-tracks issues stop before their tails, `: {album_names}` and `: {sorted(missing)}` (agents/scanner.py:434, 456). The first prints a Python set, whose order depends on string hashing; the second would need Python's list printing. Type and severity, which the rest of the program reads, are exact.
- State.StateStore.GetErrors: a ledger file that is not valid JSON reads as empty in the program (orchestrator/state.py:251-254); the model keeps the ledger as a value and has no unreadable file.
- State.StateStore.ListAlbumsByStatus: returns a set of album records. The program returns a list in the order its directory listing gives, which depends on the file system.
- The clock and the md5 digest are parameters throughout (`now` strings and `digest` functions). `State.DigestOk` states only what the model needs from the digest: every digest is 32 characters long.
- JSON and file I/O:
  - reading and writing the state files, the queue file, the configuration file, the CSV files and the reports;
  - `mkdir`, copying and moving files;
  - directory listings.

  Each of these is a parameter: a listing, a `listNow` function, or a flag saying whether the operation failed. The order of a directory listing is taken as given.
- `list_checkpoints` (orchestrator/state.py:192-210): only lists checkpoint files on disk.
- The typed accessors of the configuration (orchestrator/config.py:113-155): each is a single `get` with a default, which `Config.Get` already models.
- Tag reading and writing with mutagen:
  - These are not modelled: `_read_current_metadata`, `_read_disc_metadata`, `_update_disc_metadata`, `_embed_cover_art` and `_extract_cover_from_file` in orchestrator/music_metadata_system.py.
  - The model takes their results as inputs.
  - `MetadataSystem.CheckCoverArt` works on abstract per-track cover records.
- `_enrich_metadata`, `_lookup_disc_count`, `_fetch_cover_art` and the synchronisation of folder art in orchestrator/music_metadata_system.py call the catalogues over HTTP. Their results are inputs (`AlbumInput.enrichment`, `failure`).
- `_generate_album_report` is modelled only for the fields the summary and the counters read. `_generate_recommendations` produces free text that nothing else reads.
- The rate-limit sleeps and the HTTP requests of the catalogue adapters are not modelled. The adapters' search results are parameters.
- MusicBrainz: `check_cover_exists` and `search_by_recording_id` are not modelled. Both only wrap a single HTTP request.
- Spotify: `get_track_isrc` and `search_track` are not modelled. Both only wrap a single HTTP request.
- Scanner: `scan_artist` and `scan_library` (agents/scanner.py:224-269) are not modelled. They walk the directory tree; the per-album step they repeat is `Scanner.ScanAlbum`, and the audio-file test is `Scanner.FindAudioFiles`.
- Orchestrator: `scan_artist`, `scan_library`, `init` and `get_status` are not modelled. They walk the file system and print; the per-album step they repeat is `Orchestrator.ScanAlbum`.
- ExtractMetadata: `get_cover_art_info`, `scan_directory` and `write_csv` are not modelled. They read image files, walk the file system and write the CSV; the record built per file is `ExtractMetadata.FileRecord`.
- FolderValidator: scanning a path that does not exist only prints a message, and is not modelled.
- Floating point:
  - Averages and ratios (quality scores, confidences, durations) are exact `real` values in the model.
  - Rounding to one or two decimals is not modelled.
  - `difflib.SequenceMatcher.ratio` is a parameter, constrained only to lie between 0 and 1.
- `print`, logging, progress output, and the `main()` and `argparse` wiring are not modelled.
- The interactive loop of `cmd_review` (orchestrator/main.py:368-413) is not modelled: it reads answers from the terminal. Its `--approve` and `--reject` options are modelled (`Cli.CmdReview`).
- Concurrency: the program is single-threaded, and the model assumes no other process changes the files between steps.

## Findings

| source | as written | input that shows it | evidently intended | confidence | as-written member | corrected member |
|---|---|---|---|---|---|---|
| utilities/consolidate_multidisc.py:217-225, 243-245 | a name collision is renamed to `Disc{n}_{filename}` without checking again whether that name exists; `shutil.copy2` overwrites; and the verification compares only the number of copy operations | three folders "X Disc 1", "X CD1" and "X [Disc 1]", all parsed as disc 1 of "X" and each holding `01.mp3`: the third copy overwrites `Disc1_01.mp3`, so the new folder holds two tracks, yet the call returns True | a lost track makes the consolidation fail | high, not executed | ConsolidateMultidisc.ConsolidateAsWritten, ConsolidateMultidisc.OverwriteUndetected | ConsolidateMultidisc.Consolidate, ConsolidateMultidisc.ConsolidateDiscs |
| orchestrator/music_metadata_system.py:586 | `enrichment.get('best_match', {}).get('track_count', 0)` raises AttributeError when `best_match` is None, which `_enrich_metadata` sets when no source matched (line 392) | an album that no catalogue matches | an unmatched album is validated with a track count of 0 and sent to review | high, not executed | MetadataSystem.ValidateAsWritten, MetadataSystem.NoMatchRaises | MetadataSystem.Validate |
| orchestrator/music_metadata_system.py:369-376, 190-196 | the AttributeError above is caught by `_process_album`, so the album ends with status 'error' and `process_path` counts it under `albums_failed` | a path holding one album that no catalogue matches: as written it counts one failure, where the intended run counts none | only albums whose processing genuinely failed are counted as failed | high, not executed | MetadataSystem.ProcessAlbumAsWritten, MetadataSystem.AsWrittenFailsUnmatched, MetadataSystem.ProcessPathFailsMoreAsWritten | MetadataSystem.ProcessAlbum, MetadataSystem.ProcessAll |
| utilities/consolidate_discs.py:194-202, 262-270 | the preview builds new names from the title as it is, while the consolidation first strips a leading track number from the title | disc 1, file `01 Intro.mp3` without a title tag: the preview shows `1-01 01 Intro.mp3` and the consolidation writes `1-01 Intro.mp3` | the preview shows the names the consolidation will give | medium, not executed | ConsolidateDiscs.PreviewNameAsWritten, ConsolidateDiscs.PreviewNameDiffers | ConsolidateDiscs.NewName, ConsolidateDiscs.PreviewConsolidation |
