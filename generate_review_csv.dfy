// `utilities/generate_review_csv.py`: the albums of the work queue that wait
// for a human decision are listed in a spreadsheet, most confident match
// first, with empty APPROVE, REJECT and NOTES columns for the reviewer.

module GenerateReviewCsv {
  import opened Text
  import Json
  import Sorting
  import Fixer
  import ProcessReviewCsv

  /** The queue as loaded: album ids with their entries, in file order. */
  type Queue = seq<(string, Json.Obj)>

  /** The header row of the spreadsheet. */
  const Header: seq<string> := ["album_id", "local_folder", "match_title", "match_artist", "confidence",
                                "source", "has_corrections", "not_found", "APPROVE", "REJECT", "NOTES"]

  // ------------------------------------------------------------ selection

  predicate InReview(data: Json.Obj) {
    Json.Get(data, "status", Json.Null) == Json.Str("needs_review")
  }

  /** `{'id': album_id, **data}`: the entry with its id added; an `id` key
      of the entry itself wins, since it comes later in the display. */
  function ItemOf(id: string, data: Json.Obj): (item: Json.Obj)
    ensures "id" in item
    ensures forall k :: k != "id" ==> (k in item <==> k in data) && (k in data ==> item[k] == data[k])
    ensures item["id"] == (if "id" in data then data["id"] else Json.Str(id))
  {
    map["id" := Json.Str(id)] + data
  }

  /** The list comprehension: the entries waiting for review, in queue order. */
  function Pending(q: Queue): (items: seq<Json.Obj>)
    ensures |items| <= |q|
  {
    if q == [] then []
    else Pending(q[..|q| - 1]) + (if InReview(q[|q| - 1].1) then [ItemOf(q[|q| - 1].0, q[|q| - 1].1)] else [])
  }

  /** Exactly the entries whose status is "needs_review" are listed. */
  lemma {:induction false} PendingExactly(q: Queue)
    ensures forall x :: x in Pending(q) ==> exists i :: 0 <= i < |q| && InReview(q[i].1) && x == ItemOf(q[i].0, q[i].1)
    ensures forall i :: 0 <= i < |q| && InReview(q[i].1) ==> ItemOf(q[i].0, q[i].1) in Pending(q)
  {
    if q != [] {
      var init := q[..|q| - 1];
      PendingExactly(init);
      assert forall i :: 0 <= i < |init| ==> init[i] == q[i];
    }
  }

  /** Entries of any other status contribute nothing: a queue with none
      waiting for review gives an empty spreadsheet. */
  lemma {:induction false} NoneInReview(q: Queue)
    requires forall i :: 0 <= i < |q| ==> !InReview(q[i].1)
    ensures Pending(q) == []
  {
    if q != [] {
      var init := q[..|q| - 1];
      assert forall i :: 0 <= i < |init| ==> init[i] == q[i];
      NoneInReview(init);
    }
  }

  // ------------------------------------------------------------- ordering

  /** `d.get(key, {})` for a nested object; the entries this script reads
      hold objects there (see `Readable`). */
  function ObjectAt(d: Json.Obj, key: string): Json.Obj {
    if key in d && d[key].Object? then d[key].fields else map[]
  }

  /** A JSON number (or boolean) as the number Python compares. */
  predicate Numeric(v: Json.Value) { v.Int? || v.Real? || v.Bool? }

  function NumberOf(v: Json.Value): real {
    match v
    case Int(i) => i as real
    case Real(r) => r
    case Bool(b) => if b then 1.0 else 0.0
    case _ => 0.0
  }

  /** The sort key: `item.get('metadata', {}).get('confidence', 0)`. */
  function Confidence(item: Json.Obj): real {
    NumberOf(Json.Get(ObjectAt(item, "metadata"), "confidence", Json.Int(0)))
  }

  /** `reverse=True` as the ascending sort on the negated key. */
  function Descending(item: Json.Obj): real {
    -Confidence(item)
  }

  /** `sorted(review_items, key=..., reverse=True)`. */
  function Ordered(q: Queue): seq<Json.Obj> {
    Sorting.SortBy(Pending(q), Descending)
  }

  /** The rows are the pending entries, each once, with the most confident
      first; an entry without a confidence sorts as 0. */
  lemma OrderedByConfidence(q: Queue)
    ensures multiset(Ordered(q)) == multiset(Pending(q))
    ensures |Ordered(q)| == |Pending(q)|
    ensures forall i, j :: 0 <= i < j < |Ordered(q)| ==> Confidence(Ordered(q)[i]) >= Confidence(Ordered(q)[j])
  {
    Sorting.SortByLength(Pending(q), Descending);
    var s := Ordered(q);
    forall i, j | 0 <= i < j < |s| ensures Confidence(s[i]) >= Confidence(s[j]) {
      assert Descending(s[i]) <= Descending(s[j]);
    }
  }

  /** Entries of equal confidence keep their queue order: `k` is the
      negated confidence of the class. */
  lemma OrderedStable(q: Queue, k: real)
    ensures Sorting.WithKey(Ordered(q), Descending, k) == Sorting.WithKey(Pending(q), Descending, k)
  {
    Sorting.SortByStable(Pending(q), Descending, k);
  }

  // ------------------------------------------------------------------ rows

  /** How the confidence cell is written: a float as a whole percentage
      (`f'{c:.0%}'`), anything else as `str(c)`. */
  datatype ConfidenceCell = Percent(fraction: real) | Shown(value: Json.Value)

  /** One data row. The match columns and the confidence hold the values the
      writer receives; the three reviewer columns start empty. The folder
      column is written from the entry's path (see `LocalFolder`). */
  datatype ReviewRow = ReviewRow(
    albumId: string, path: string, matchTitle: Json.Value, matchArtist: Json.Value,
    confidence: ConfidenceCell, source: Json.Value, hasCorrections: string, notFound: string,
    approve: string, reject: string, notes: string)

  /** `item.get('id', '')[:12]`. */
  function ShortId(id: string): (r: string)
    ensures |r| == if |id| < 12 then |id| else 12
    ensures StartsWith(id, r)
  {
    if |id| <= 12 then id else id[..12]
  }

  function TextOf(v: Json.Value): string {
    if v.Str? then v.s else []
  }

  /** `metadata.get('confidence', validation.get('confidence', 0))`. */
  function ConfidenceOf(metadata: Json.Obj, validation: Json.Obj): Json.Value {
    Json.Get(metadata, "confidence", Json.Get(validation, "confidence", Json.Int(0)))
  }

  function CellOf(c: Json.Value): ConfidenceCell {
    if c.Real? then Percent(c.r) else Shown(c)
  }

  function YesNo(b: bool): string {
    if b then "Yes" else "No"
  }

  /** `Path(path).name`: the local_folder column. */
  function LocalFolder(r: ReviewRow): string {
    Fixer.BaseName(r.path)
  }

  /** The loop body's fields of one item. */
  function RowOf(item: Json.Obj): ReviewRow {
    var metadata := ObjectAt(item, "metadata");
    var validation := ObjectAt(metadata, "validation");
    ReviewRow(
      ShortId(TextOf(Json.Get(item, "id", Json.Str("")))),
      TextOf(Json.Get(item, "path", Json.Str(""))),
      Json.Get(validation, "match_title", Json.Str("")),
      Json.Get(validation, "match_artist", Json.Str("")),
      CellOf(ConfidenceOf(metadata, validation)),
      Json.Get(validation, "match_source", Json.Str("")),
      YesNo(Json.Truthy(Json.Get(validation, "corrections", Json.List([])))),
      YesNo(!Json.Truthy(Json.Get(validation, "matched", Json.Bool(true)))),
      "", "", "")
  }

  /** The flags of a row: corrections listed exactly when the validation has
      a non-empty `corrections`, and not found exactly when its `matched` is
      present and false; the reviewer's columns are empty. */
  lemma RowFlags(item: Json.Obj)
    ensures var v := ObjectAt(ObjectAt(item, "metadata"), "validation");
            && (RowOf(item).hasCorrections == "Yes" <==> "corrections" in v && Json.Truthy(v["corrections"]))
            && (RowOf(item).hasCorrections == "No" <==> !("corrections" in v && Json.Truthy(v["corrections"])))
            && (RowOf(item).notFound == "Yes" <==> "matched" in v && !Json.Truthy(v["matched"]))
            && (RowOf(item).notFound == "No" <==> !("matched" in v && !Json.Truthy(v["matched"])))
    ensures RowOf(item).approve == [] && RowOf(item).reject == [] && RowOf(item).notes == []
  {
  }

  /** The confidence shown is the metadata's, else the validation's, else 0;
      a float is shown as a percentage. */
  lemma RowConfidence(item: Json.Obj)
    ensures var m := ObjectAt(item, "metadata");
            var v := ObjectAt(m, "validation");
            var c := if "confidence" in m then m["confidence"]
                     else if "confidence" in v then v["confidence"] else Json.Int(0);
            RowOf(item).confidence == (if c.Real? then Percent(c.r) else Shown(c))
  {
  }

  /** The id column is the first twelve characters of the album id. */
  lemma RowId(id: string, data: Json.Obj)
    requires "id" !in data
    ensures StartsWith(id, RowOf(ItemOf(id, data)).albumId)
    ensures |RowOf(ItemOf(id, data)).albumId| == if |id| < 12 then |id| else 12
  {
  }

  // --------------------------------------------------------------- main()

  /** What the script reads without failing: the entry's `id` and `path`
      are text and its `metadata` and `validation` are objects, and the
      metadata confidence is a number the sort can compare. */
  predicate Readable(data: Json.Obj) {
    && ("id" in data ==> data["id"].Str?)
    && ("path" in data ==> data["path"].Str?)
    && ("metadata" in data ==>
          && data["metadata"].Object?
          && var m := data["metadata"].fields;
          && ("confidence" in m ==> Numeric(m["confidence"]))
          && ("validation" in m ==> m["validation"].Object?))
  }

  /** `main()`: the pending entries, sorted, are written one row each after
      the header. Loading the queue and writing the file are I/O. */
  method GenerateReview(q: Queue) returns (rows: seq<ReviewRow>)
    requires forall i :: 0 <= i < |q| ==> Readable(q[i].1)
    ensures rows == Rows(Ordered(q))
  {
    var items := Sorting.SortBy(Pending(q), Descending);
    rows := [];
    var n := 0;
    while n < |items|
      invariant 0 <= n <= |items|
      invariant rows == Rows(items[..n])
    {
      rows := rows + [RowOf(items[n])];
      PrefixSnoc(items, n);
      n := n + 1;
    }
    assert items[..n] == items;
  }

  /** The rows written for `items`, in order. */
  function Rows(items: seq<Json.Obj>): seq<ReviewRow> {
    if items == [] then [] else Rows(items[..|items| - 1]) + [RowOf(items[|items| - 1])]
  }

  /** One row per item, in the items' order. */
  lemma {:induction false} RowsAt(items: seq<Json.Obj>)
    ensures |Rows(items)| == |items|
    ensures forall i :: 0 <= i < |items| ==> Rows(items)[i] == RowOf(items[i])
  {
    if items != [] {
      RowsAt(items[..|items| - 1]);
    }
  }

  lemma PrefixSnoc<T>(s: seq<T>, i: nat)
    requires i < |s|
    ensures s[..i + 1] == s[..i] + [s[i]]
  {
  }

  // ------------------------------------------------- reading the sheet back

  /** A spreadsheet row as the reviewer returns it untouched: the id, folder
      and decision cells hold what was written. */
  predicate Written(r: ReviewRow, row: ProcessReviewCsv.Row) {
    && "album_id" in row && row["album_id"] == r.albumId
    && "local_folder" in row && row["local_folder"] == LocalFolder(r)
    && "APPROVE" in row && row["APPROVE"] == r.approve
    && "REJECT" in row && row["REJECT"] == r.reject
  }

  /** A row nobody marked reads back with its id and folder and leaves its
      album alone. */
  lemma UnmarkedRowKeeps(r: ReviewRow, row: ProcessReviewCsv.Row)
    requires Written(r, row) && r.approve == [] && r.reject == []
    ensures ProcessReviewCsv.MarksOf(row) == ProcessReviewCsv.Marks(Strip(r.albumId), [], [], LocalFolder(r))
    ensures ProcessReviewCsv.VerdictOf(ProcessReviewCsv.MarksOf(row)) == ProcessReviewCsv.Keep
  {
    EmptyCell();
  }

  lemma EmptyCell()
    ensures Upper(Strip([])) == [] && [] !in ProcessReviewCsv.Ticks
  {
    assert Strip([]) == [];
  }

  /** Feeding back the spreadsheet unmarked changes no status and approves or
      rejects nothing. */
  lemma UnmarkedSheetChangesNothing(q: Queue, sheet: seq<ProcessReviewCsv.Row>, keys: seq<string>)
    requires |sheet| <= |Ordered(q)|
    requires forall j :: 0 <= j < |sheet| ==> Written(RowOf(Ordered(q)[j]), sheet[j])
    ensures forall i: nat :: ProcessReviewCsv.FinalStatus(keys, ProcessReviewCsv.ReadSheet(sheet), i).None?
    ensures ProcessReviewCsv.Labels(keys, ProcessReviewCsv.ReadSheet(sheet), ProcessReviewCsv.Approve) == []
    ensures ProcessReviewCsv.Labels(keys, ProcessReviewCsv.ReadSheet(sheet), ProcessReviewCsv.Reject) == []
  {
    var rows := ProcessReviewCsv.ReadSheet(sheet);
    forall j | 0 <= j < |rows| ensures ProcessReviewCsv.VerdictOf(rows[j]) == ProcessReviewCsv.Keep {
      RowFlags(Ordered(q)[j]);
      UnmarkedRowKeeps(RowOf(Ordered(q)[j]), sheet[j]);
    }
    forall i: nat ensures ProcessReviewCsv.FinalStatus(keys, rows, i).None? {
      ProcessReviewCsv.UndecidedKept(keys, rows, i);
    }
    NoDecisionLabels(keys, rows, ProcessReviewCsv.Approve);
    NoDecisionLabels(keys, rows, ProcessReviewCsv.Reject);
  }

  lemma {:induction false} NoDecisionLabels(keys: seq<string>, rows: seq<ProcessReviewCsv.Marks>, v: ProcessReviewCsv.Verdict)
    requires v != ProcessReviewCsv.Keep
    requires forall j :: 0 <= j < |rows| ==> ProcessReviewCsv.VerdictOf(rows[j]) == ProcessReviewCsv.Keep
    ensures ProcessReviewCsv.Labels(keys, rows, v) == []
  {
    if rows != [] {
      var init := rows[..|rows| - 1];
      assert forall j :: 0 <= j < |init| ==> init[j] == rows[j];
      NoDecisionLabels(keys, init, v);
    }
  }
}
