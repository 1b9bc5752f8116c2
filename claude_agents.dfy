/** The glue between the pipeline and the reasoning agents: the input
    records handed to each agent, the reading of an agent's free-text
    reply, the required-field check on a parsed reply, the auto-apply
    decision on a validator's verdict, and the workflow log. Loading the
    agents' prompt files and rendering the prompt text are not modelled;
    the clock is the `now` parameter and the JSON parser is `loads`. */
module ClaudeAgents {
  import opened Wrappers
  import opened Text
  import Json

  // ------------------------------------------------------------ agent names

  const MetadataValidator := "metadata_validator"
  const ConflictResolver := "conflict_resolver"
  const MetadataEnrichment := "metadata_enrichment"
  const FingerprintValidator := "fingerprint_validator"
  const ReportGenerator := "report_generator"

  // --------------------------------------------------------- agent inputs

  /** `x or []` for a list-valued argument: a falsy value becomes `[]`. */
  function OrEmptyList(v: Json.Value): (r: Json.Value)
    ensures Json.Truthy(v) ==> r == v
    ensures !Json.Truthy(v) ==> r == Json.List([])
  {
    if Json.Truthy(v) then v else Json.List([])
  }

  /** `prepare_validation_input`: the metadata_validator request. The
      source lists default to `[]`, the track count to 0 and the artwork
      flag to false when the current metadata lacks them. */
  function PrepareValidationInput(albumPath: string, folderName: string, currentMetadata: Json.Obj,
                                  trusted: Json.Value, fingerprint: Json.Value,
                                  sourcesQueried: Json.Value, sourcesMatched: Json.Value, now: string)
    : (r: Json.Obj)
    ensures r.Keys == {"agent", "input", "timestamp", "request_type"}
    ensures r["agent"] == Json.Str(MetadataValidator) && r["timestamp"] == Json.Str(now)
    ensures r["input"].Object? && r["input"].fields.Keys ==
              {"album_path", "folder_name", "current_metadata", "trusted_source_metadata", "fingerprint_data",
               "sources_queried", "sources_matched", "track_count", "has_artwork"}
    ensures var input := r["input"].fields;
            && input["album_path"] == Json.Str(albumPath) && input["folder_name"] == Json.Str(folderName)
            && input["current_metadata"] == Json.Object(currentMetadata)
            && input["trusted_source_metadata"] == trusted && input["fingerprint_data"] == fingerprint
            && (!Json.Truthy(sourcesQueried) ==> input["sources_queried"] == Json.List([]))
            && (!Json.Truthy(sourcesMatched) ==> input["sources_matched"] == Json.List([]))
            && ("track_count" !in currentMetadata ==> input["track_count"] == Json.Int(0))
            && ("has_artwork" !in currentMetadata ==> input["has_artwork"] == Json.Bool(false))
  {
    var input := map[
      "album_path" := Json.Str(albumPath),
      "folder_name" := Json.Str(folderName),
      "current_metadata" := Json.Object(currentMetadata),
      "trusted_source_metadata" := trusted,
      "fingerprint_data" := fingerprint,
      "sources_queried" := OrEmptyList(sourcesQueried),
      "sources_matched" := OrEmptyList(sourcesMatched),
      "track_count" := Json.Get(currentMetadata, "track_count", Json.Int(0)),
      "has_artwork" := Json.Get(currentMetadata, "has_artwork", Json.Bool(false))];
    map["agent" := Json.Str(MetadataValidator), "input" := Json.Object(input),
        "timestamp" := Json.Str(now), "request_type" := Json.Str("validation")]
  }

  /** `prepare_enrichment_input`: the title falls back to the folder name
      when absent or empty, the current metadata to `{}`. */
  function PrepareEnrichmentInput(albumPath: string, folderName: string, artist: string, title: Option<string>,
                                  trackCount: int, currentMetadata: Option<Json.Obj>, now: string)
    : (r: Json.Obj)
    ensures r.Keys == {"agent", "input", "timestamp", "request_type"}
    ensures r["agent"] == Json.Str(MetadataEnrichment) && r["timestamp"] == Json.Str(now)
    ensures r["input"].Object? && r["input"].fields.Keys ==
              {"album_path", "folder_name", "artist", "title", "track_count", "current_metadata"}
    ensures var input := r["input"].fields;
            && input["artist"] == Json.Str(artist) && input["track_count"] == Json.Int(trackCount)
            && (title.None? || title.value == [] ==> input["title"] == Json.Str(folderName))
            && (title.Some? && title.value != [] ==> input["title"] == Json.Str(title.value))
            && (currentMetadata.None? ==> input["current_metadata"] == Json.Object(map[]))
            && (currentMetadata.Some? ==> input["current_metadata"] == Json.Object(currentMetadata.value))
  {
    var t := if title.Some? && title.value != [] then title.value else folderName;
    var m := if currentMetadata.Some? then currentMetadata.value else map[];
    var input := map[
      "album_path" := Json.Str(albumPath),
      "folder_name" := Json.Str(folderName),
      "artist" := Json.Str(artist),
      "title" := Json.Str(t),
      "track_count" := Json.Int(trackCount),
      "current_metadata" := Json.Object(m)];
    map["agent" := Json.Str(MetadataEnrichment), "input" := Json.Object(input),
        "timestamp" := Json.Str(now), "request_type" := Json.Str("enrichment")]
  }

  // -------------------------------------------------- reading a free reply

  const JsonFence := "```json"
  const Fence := "```"

  /** `s.find(sub, start)` for `start <= |s|`. */
  function FindFrom(s: string, sub: string, start: nat): (r: int)
    requires start <= |s|
    ensures r == -1 || (start <= r <= |s| && OccursAt(s, sub, r))
    ensures forall j :: start <= j <= |s| && (r < 0 || j < r) ==> !OccursAt(s, sub, j)
    decreases |s| - start
  {
    if OccursAt(s, sub, start) then start
    else if start == |s| then -1
    else FindFrom(s, sub, start + 1)
  }

  /** The first occurrence at or after `start` is at `k` when `sub` occurs
      there and nothing before it can open `sub`. */
  lemma FirstFrom(s: string, sub: string, start: nat, k: nat)
    requires start <= k <= |s| && sub != [] && OccursAt(s, sub, k)
    requires forall j :: start <= j < k ==> s[j] != sub[0]
    ensures FindFrom(s, sub, start) == k
  {
    var r := FindFrom(s, sub, start);
    assert r < 0 || s[r] == sub[0] by {
      if r >= 0 {
        assert s[r..r + |sub|][0] == s[r];
      }
    }
  }

  /** `s[a:b]` in Python for `a >= 0` and `b >= -1`: a stop of -1 means
      one before the end; indices past the end are clamped. */
  function Slice(s: string, a: nat, b: int): (r: string)
    requires b >= -1
    ensures |r| <= |s|
    ensures b >= 0 && a <= b <= |s| ==> r == s[a..b]
    ensures b == -1 && a < |s| ==> r == s[a..|s| - 1]
  {
    var stop := if b < 0 then (if |s| == 0 then 0 else |s| - 1) else if b > |s| then |s| else b;
    if a >= stop then [] else s[a..stop]
  }

  /** The text handed to the JSON parser: the body of the first ```json
      fence, else of the first plain fence, else the whole reply, stripped.
      A fence without its closing mark runs to one character before the
      end of the reply (Python's `find` returns -1 there). */
  function ExtractJsonText(response: string): (r: string)
    ensures |r| <= |response|
  {
    Strip(FencedText(response, JsonFence, Fence))
  }

  /** The text before stripping, with the opening mark `open` (```json)
      and the plain fence `close` (```) left abstract, so that proofs about
      it need not look inside the two literals. */
  function FencedText(response: string, open: string, close: string): (r: string)
    ensures |r| <= |response|
  {
    var o := FindFrom(response, open, 0);
    if o >= 0 then FenceSlice(response, o + |open|, close)
    else
      var p := FindFrom(response, close, 0);
      if p >= 0 then FenceSlice(response, p + |close|, close) else response
  }

  /** `response[start:end]` where `end` is the next `close` mark. */
  function FenceSlice(response: string, start: nat, close: string): (r: string)
    requires start <= |response|
    ensures |r| <= |response|
  {
    Slice(response, start, FindFrom(response, close, start))
  }

  /** Both fence marks open with a backtick. */
  predicate TickMarks(open: string, close: string) {
    open != [] && open[0] == '`' && close != [] && close[0] == '`'
  }

  lemma FenceMarks()
    ensures TickMarks(JsonFence, Fence)
  {
  }

  /** A body without backticks followed by a `close` mark is the fenced
      text. */
  lemma ClosedBody(s: string, start: nat, body: string, close: string)
    requires close != [] && close[0] == '`'
    requires start + |body| + |close| <= |s| && s[start..start + |body|] == body && '`' !in body
    requires s[start + |body|..start + |body| + |close|] == close
    ensures FenceSlice(s, start, close) == body
  {
    forall j | start <= j < start + |body| ensures s[j] != close[0] {
      assert s[j] == body[j - start];
    }
    FirstFrom(s, close, start, start + |body|);
  }

  lemma NoTickNoFence(s: string, sub: string, j: int)
    requires sub != [] && sub[0] == '`' && '`' !in s
    ensures !OccursAt(s, sub, j)
  {
    if 0 <= j && j + |sub| <= |s| {
      assert s[j..j + |sub|][0] == s[j];
    }
  }

  /** A reply without any backtick is parsed whole, stripped. */
  lemma UnfencedReply(response: string)
    requires '`' !in response
    ensures ExtractJsonText(response) == Strip(response)
  {
    FenceMarks();
    UnfencedWith(response, JsonFence, Fence);
  }

  lemma UnfencedWith(response: string, open: string, close: string)
    requires '`' !in response && TickMarks(open, close)
    ensures FencedText(response, open, close) == response
  {
    forall j ensures !OccursAt(response, open, j) && !OccursAt(response, close, j) {
      NoTickNoFence(response, open, j);
      NoTickNoFence(response, close, j);
    }
  }

  /** A fence `mark` opened after a backtick-free prefix and closed by
      `close` after a backtick-free body: the first `mark` is at the end of
      the prefix and the fenced text is the body. */
  lemma {:induction false} FencedAt(pre: string, mark: string, body: string, close: string, post: string)
    requires '`' !in pre && '`' !in body && TickMarks(mark, close)
    ensures FindFrom(pre + mark + body + close + post, mark, 0) == |pre|
    ensures FenceSlice(pre + mark + body + close + post, |pre| + |mark|, close) == body
  {
    var s := pre + mark + body + close + post;
    var start := |pre| + |mark|;
    assert s[..|pre|] == pre;
    assert s[|pre|..start] == mark;
    assert s[start..start + |body|] == body;
    assert s[start + |body|..start + |body| + |close|] == close;
    forall j | 0 <= j < |pre| ensures s[j] != mark[0] {
      assert s[j] == s[..|pre|][j];
    }
    FirstFrom(s, mark, 0, |pre|);
    ClosedBody(s, start, body, close);
  }

  /** With an opening mark at `k`, the fenced text follows it. */
  lemma OpenedAt(s: string, open: string, close: string, k: nat, t: string)
    requires FindFrom(s, open, 0) == k && k + |open| <= |s| && FenceSlice(s, k + |open|, close) == t
    ensures FencedText(s, open, close) == t
  {
  }

  /** Without an opening mark but with a plain mark at `k`, the fenced text
      follows the plain mark. */
  lemma PlainAt(s: string, open: string, close: string, k: nat, t: string)
    requires FindFrom(s, open, 0) < 0
    requires FindFrom(s, close, 0) == k && k + |close| <= |s| && FenceSlice(s, k + |close|, close) == t
    ensures FencedText(s, open, close) == t
  {
  }

  /** A ```json fence yields its stripped body, whatever follows it. */
  lemma {:induction false} JsonFencedReply(pre: string, body: string, post: string)
    requires '`' !in pre && '`' !in body
    ensures ExtractJsonText(pre + JsonFence + body + Fence + post) == Strip(body)
  {
    FenceMarks();
    OpenFenceWith(pre, JsonFence, body, Fence, post);
  }

  lemma {:induction false} OpenFenceWith(pre: string, open: string, body: string, close: string, post: string)
    requires '`' !in pre && '`' !in body && TickMarks(open, close)
    ensures FencedText(pre + open + body + close + post, open, close) == body
  {
    FencedAt(pre, open, body, close, post);
    OpenedAt(pre + open + body + close + post, open, close, |pre|, body);
  }

  /** Without a ```json fence, a plain fence yields its stripped body. */
  lemma {:induction false} PlainFencedReply(pre: string, body: string, post: string)
    requires '`' !in pre && '`' !in body
    requires FindFrom(pre + Fence + body + Fence + post, JsonFence, 0) < 0
    ensures ExtractJsonText(pre + Fence + body + Fence + post) == Strip(body)
  {
    FenceMarks();
    PlainFenceWith(pre, JsonFence, body, Fence, post);
  }

  lemma {:induction false} PlainFenceWith(pre: string, open: string, body: string, close: string, post: string)
    requires '`' !in pre && '`' !in body && TickMarks(open, close)
    requires FindFrom(pre + close + body + close + post, open, 0) < 0
    ensures FencedText(pre + close + body + close + post, open, close) == body
  {
    FencedAt(pre, close, body, close, post);
    PlainAt(pre + close + body + close + post, open, close, |pre|, body);
  }

  /** A ```json fence that is never closed loses the reply's last
      character: the parser sees the body without its final character. */
  lemma {:induction false} UnclosedJsonFence(pre: string, body: string)
    requires '`' !in pre && '`' !in body && body != []
    ensures ExtractJsonText(pre + JsonFence + body) == Strip(body[..|body| - 1])
  {
    FenceMarks();
    UnclosedWith(pre, JsonFence, body, Fence);
  }

  lemma {:induction false} UnclosedWith(pre: string, open: string, body: string, close: string)
    requires '`' !in pre && '`' !in body && body != [] && TickMarks(open, close)
    ensures FencedText(pre + open + body, open, close) == body[..|body| - 1]
  {
    UnclosedAt(pre, open, body, close);
    OpenedAt(pre + open + body, open, close, |pre|, body[..|body| - 1]);
  }

  /** A fence `mark` opened after a backtick-free prefix and never closed:
      the first `mark` is at the end of the prefix and the fenced text runs
      to one before the end. */
  lemma {:induction false} UnclosedAt(pre: string, mark: string, body: string, close: string)
    requires '`' !in pre && '`' !in body && body != [] && TickMarks(mark, close)
    ensures FindFrom(pre + mark + body, mark, 0) == |pre|
    ensures FenceSlice(pre + mark + body, |pre| + |mark|, close) == body[..|body| - 1]
  {
    UnclosedBody(pre + mark, body, close);
    assert |pre + mark| == |pre| + |mark|;
    MarkAfter(pre, mark, body);
  }

  /** A mark right after a prefix without the mark's first character is
      the first one. */
  lemma MarkAfter(pre: string, mark: string, rest: string)
    requires mark != [] && mark[0] !in pre
    ensures FindFrom(pre + mark + rest, mark, 0) == |pre|
  {
    var s := pre + mark + rest;
    assert s[|pre|..|pre| + |mark|] == mark;
    forall j | 0 <= j < |pre| ensures s[j] != mark[0] {
      assert s[j] == pre[j];
    }
    FirstFrom(s, mark, 0, |pre|);
  }

  /** The fenced text of a fence never closed, after a backtick-free body. */
  lemma UnclosedBody(head: string, body: string, close: string)
    requires '`' !in body && body != [] && close != [] && close[0] == '`'
    ensures FenceSlice(head + body, |head|, close) == body[..|body| - 1]
  {
    NoTickTail(head, body);
    NoFenceAfter(head + body, |head|, close);
    UnclosedSlice(head, body);
  }

  /** Sliced to the end marker -1, the text after `head` loses its final
      character. */
  lemma UnclosedSlice(head: string, body: string)
    requires body != []
    ensures Slice(head + body, |head|, -1) == body[..|body| - 1]
  {
    assert (head + body)[|head|..|head| + |body| - 1] == body[..|body| - 1];
  }

  /** A backtick-free tail keeps `head + body` backtick-free past `head`. */
  lemma NoTickTail(head: string, body: string)
    requires '`' !in body
    ensures forall j :: |head| <= j < |head + body| ==> (head + body)[j] != '`'
  {
    forall j | |head| <= j < |head + body| ensures (head + body)[j] != '`' {
      assert (head + body)[j] == body[j - |head|];
    }
  }

  /** No backtick from `start` on, so no fence mark either. */
  lemma NoFenceAfter(s: string, start: nat, close: string)
    requires start <= |s| && close != [] && close[0] == '`'
    requires forall j :: start <= j < |s| ==> s[j] != '`'
    ensures FindFrom(s, close, start) == -1
  {
    forall j | start <= j <= |s| ensures !OccursAt(s, close, j) {
      if j + |close| <= |s| {
        assert s[j..j + |close|][0] == s[j];
      }
    }
  }

  /** `response[:500]`. */
  function Prefix500(response: string): (r: string)
    ensures r <= response && |r| <= 500
    ensures |response| <= 500 ==> r == response
    ensures |response| > 500 ==> |r| == 500
  {
    if |response| <= 500 then response else response[..500]
  }

  /** `parse_agent_response`: the parsed JSON, or a parse_error record
      carrying the parser's message and the reply's first 500 characters. */
  function ParseAgentResponse(response: string, loads: string -> Result<Json.Value, string>): (r: Json.Value)
    ensures loads(ExtractJsonText(response)).Ok? ==> r == loads(ExtractJsonText(response)).value
    ensures loads(ExtractJsonText(response)).Err? ==>
              r.Object? && "status" in r.fields && "error" in r.fields && "raw_response" in r.fields
              && r.fields.Keys == {"status", "error", "raw_response"}
              && r.fields["status"] == Json.Str("parse_error")
              && r.fields["error"] == Json.Str(loads(ExtractJsonText(response)).error)
              && r.fields["raw_response"].Str? && r.fields["raw_response"].s <= response
              && |r.fields["raw_response"].s| <= 500
  {
    match loads(ExtractJsonText(response))
    case Ok(v) => v
    case Err(e) =>
      Json.Object(map["status" := Json.Str("parse_error"), "error" := Json.Str(e),
                      "raw_response" := Json.Str(Prefix500(response))])
  }

  // ------------------------------------------------- checking a parsed reply

  /** The fields each known agent's reply must carry; none for others. */
  function RequiredFields(agentName: string): (fs: seq<string>)
    ensures (agentName !in {MetadataValidator, ConflictResolver, MetadataEnrichment,
                            FingerprintValidator, ReportGenerator}) ==> fs == []
    ensures (agentName in {MetadataValidator, ConflictResolver, MetadataEnrichment,
                           FingerprintValidator, ReportGenerator}) ==> 2 <= |fs| <= 3
  {
    if agentName == MetadataValidator then ["quality_score", "validation_status"]
    else if agentName == ConflictResolver then ["conflict_resolution_status", "artwork_decision"]
    else if agentName == MetadataEnrichment then ["enrichment_status", "tracks"]
    else if agentName == FingerprintValidator then ["fingerprint", "validation"]
    else if agentName == ReportGenerator then ["album", "tracks", "processing_info"]
    else []
  }

  /** `validate_response`, as Python's `all` runs it: field by field,
      stopping at the first one missing. */
  function AllPresent(response: Json.Obj, fields: seq<string>): (ok: bool)
    ensures ok <==> forall i :: 0 <= i < |fields| ==> fields[i] in response
  {
    fields == [] || (fields[0] in response && AllPresent(response, fields[1..]))
  }

  function ValidateResponse(response: Json.Obj, agentName: string): (ok: bool)
    ensures ok <==> forall f :: f in RequiredFields(agentName) ==> f in response
  {
    AllPresent(response, RequiredFields(agentName))
  }

  /** Any reply is valid for an agent with no required fields. */
  lemma UnknownAgentAccepts(response: Json.Obj, agentName: string)
    requires agentName !in {MetadataValidator, ConflictResolver, MetadataEnrichment,
                            FingerprintValidator, ReportGenerator}
    ensures ValidateResponse(response, agentName)
  {
    assert RequiredFields(agentName) == [];
  }

  /** A validator reply is valid iff it carries a score and a status. */
  lemma ValidatorReplyFields(response: Json.Obj)
    ensures ValidateResponse(response, MetadataValidator)
            <==> "quality_score" in response && "validation_status" in response
  {
    var fs := RequiredFields(MetadataValidator);
    assert fs[0] == "quality_score" && fs[1] == "validation_status";
    assert forall f :: f in fs ==> f == fs[0] || f == fs[1];
  }

  // ------------------------------------------------------ auto-apply rule

  const AutoAccept := 90
  const AutoAcceptWithFlag := 85
  const ManualReview := 70

  /** The decision on a numeric score: auto-apply at `AutoAcceptWithFlag`
      without a review request; otherwise refuse an explicit track-count
      mismatch, and accept at `AutoAccept`. */
  function AutoApply(quality: real, requiresReview: bool, trackCountMismatch: bool): (r: bool)
    ensures r <==> (quality >= AutoAcceptWithFlag as real && !requiresReview)
                   || (quality >= AutoAccept as real && !trackCountMismatch)
  {
    if quality >= AutoAcceptWithFlag as real && !requiresReview then true
    else if trackCountMismatch then false
    else quality >= AutoAccept as real
  }

  /** Below the flag threshold nothing is applied automatically. */
  lemma BelowFlagNeverApplies(quality: real, requiresReview: bool, trackCountMismatch: bool)
    requires quality < AutoAcceptWithFlag as real
    ensures !AutoApply(quality, requiresReview, trackCountMismatch)
  {
  }

  /** The comparison `quality_score >= 85` succeeds for numbers and
      booleans; any other value raises TypeError. */
  function Number(v: Json.Value): (r: Option<real>)
    ensures v.Int? ==> r == Some(v.i as real)
    ensures v.Real? ==> r == Some(v.r)
    ensures !(v.Int? || v.Real? || v.Bool?) ==> r.None?
  {
    match v
    case Int(i) => Some(i as real)
    case Real(x) => Some(x)
    case Bool(b) => Some(if b then 1.0 else 0.0)
    case _ => None
  }

  /** `should_auto_apply` on a validator result: the score defaults to 0,
      the review request to false; only an explicit `false` counts as a
      track-count mismatch. */
  function ShouldAutoApply(result: Json.Obj): (r: Result<bool, string>)
    ensures r.Err? <==> Number(Json.Get(result, "quality_score", Json.Int(0))).None?
    ensures r.Ok? ==> r.value == AutoApply(Number(Json.Get(result, "quality_score", Json.Int(0))).value,
                                           Json.Truthy(Json.Get(result, "requires_human_review", Json.Bool(false))),
                                           "track_count_match" in result && result["track_count_match"] == Json.Bool(false))
  {
    var q := Number(Json.Get(result, "quality_score", Json.Int(0)));
    if q.None? then Err("TypeError")
    else
      var review := Json.Truthy(Json.Get(result, "requires_human_review", Json.Bool(false)));
      var mismatch := "track_count_match" in result && result["track_count_match"] == Json.Bool(false);
      Ok(AutoApply(q.value, review, mismatch))
  }

  /** A result without a score is never applied. */
  lemma MissingScoreNotApplied(result: Json.Obj)
    requires "quality_score" !in result
    ensures ShouldAutoApply(result) == Ok(false)
  {
  }

  /** A track-count match of `null` or `0` is not an explicit mismatch: a
      score of 90 or more is applied even when review was asked for. */
  lemma OnlyFalseIsMismatch(result: Json.Obj, q: int)
    requires q >= AutoAccept && "quality_score" in result && result["quality_score"] == Json.Int(q)
    requires "track_count_match" !in result || result["track_count_match"] != Json.Bool(false)
    ensures ShouldAutoApply(result) == Ok(true)
  {
  }

  // --------------------------------------------------------- the workflow

  /** One record of the workflow log. */
  function LogEntry(step: string, agent: string, result: string, now: string): (e: Json.Obj)
    ensures e.Keys == {"step", "agent", "result", "timestamp"}
    ensures e["step"] == Json.Str(step) && e["timestamp"] == Json.Str(now)
  {
    map["step" := Json.Str(step), "agent" := Json.Str(agent), "result" := Json.Str(result),
        "timestamp" := Json.Str(now)]
  }

  function Objects(log: seq<Json.Obj>): (vs: seq<Json.Value>)
    ensures |vs| == |log| && forall i :: 0 <= i < |log| ==> vs[i] == Json.Object(log[i])
  {
    if log == [] then [] else Objects(log[..|log| - 1]) + [Json.Object(log[|log| - 1])]
  }

  /** `prepare_full_workflow`: the validation request built from the
      enrichment data's best match and source lists, then the conflict
      and report placeholders that depend on it. */
  function FullWorkflow(albumPath: string, folderName: string, currentMetadata: Json.Obj,
                        enrichmentData: Json.Obj, fingerprint: Json.Value, now: string)
    : (steps: seq<Json.Obj>)
    ensures |steps| == 3
    ensures steps[1].Keys == steps[2].Keys == {"agent", "depends_on", "prepare_with"}
    ensures steps[0] == PrepareValidationInput(albumPath, folderName, currentMetadata,
                          Json.Get(enrichmentData, "best_match", Json.Null), fingerprint,
                          Json.Get(enrichmentData, "sources_queried", Json.List([])),
                          Json.Get(enrichmentData, "sources_matched", Json.List([])), now)
    ensures steps[1]["agent"] == Json.Str(ConflictResolver) && steps[1]["depends_on"] == Json.Str(MetadataValidator)
    ensures steps[2]["agent"] == Json.Str(ReportGenerator)
            && steps[2]["depends_on"] == Json.List([Json.Str(MetadataValidator), Json.Str(ConflictResolver)])
  {
    [PrepareValidationInput(albumPath, folderName, currentMetadata,
                            Json.Get(enrichmentData, "best_match", Json.Null), fingerprint,
                            Json.Get(enrichmentData, "sources_queried", Json.List([])),
                            Json.Get(enrichmentData, "sources_matched", Json.List([])), now),
     map["agent" := Json.Str(ConflictResolver), "depends_on" := Json.Str(MetadataValidator),
         "prepare_with" := Json.Str("prepare_conflict_input")],
     map["agent" := Json.Str(ReportGenerator),
         "depends_on" := Json.List([Json.Str(MetadataValidator), Json.Str(ConflictResolver)]),
         "prepare_with" := Json.Str("generate_report_input")]]
  }

  /** `AgentWorkflow`: the ordered log of the steps run so far. */
  class AgentWorkflow {
    var workflowLog: seq<Json.Obj>

    constructor ()
      ensures workflowLog == []
    {
      workflowLog := [];
    }

    /** `log_step`: exactly one entry is appended. */
    method LogStep(step: string, agent: string, result: string, now: string)
      modifies this
      ensures workflowLog == old(workflowLog) + [LogEntry(step, agent, result, now)]
      ensures Summary()["steps_executed"] == Json.Int(|old(workflowLog)| + 1)
    {
      workflowLog := workflowLog + [LogEntry(step, agent, result, now)];
    }

    /** `get_workflow_summary`: the step count is the log's length. */
    function Summary(): (r: Json.Obj)
      reads this
      ensures r.Keys == {"steps_executed", "log"}
      ensures r["steps_executed"] == Json.Int(|workflowLog|)
      ensures r["log"].List? && |r["log"].items| == |workflowLog|
    {
      map["steps_executed" := Json.Int(|workflowLog|), "log" := Json.List(Objects(workflowLog))]
    }
  }
}
