// `utilities/process_review_csv.py`: the decisions a reviewer marked in the
// review spreadsheet are written back into the work queue as statuses.

module ProcessReviewCsv {
  import opened Wrappers
  import opened Text
  import Json

  /** A spreadsheet row: column name to cell text. */
  type Row = map<string, string>

  /** The queue as loaded: album ids with their entries, in file order. */
  type Queue = seq<(string, Json.Obj)>

  /** The marks that tick a decision column, after trimming and upper-casing. */
  const Ticks: set<string> := {"X", "Y", "YES", "1", "TRUE"}

  /** `row.get(column, '')`. */
  function Cell(row: Row, column: string): string {
    if column in row then row[column] else []
  }

  /** What the loop reads from a row: the album id, shortened in the
      spreadsheet, and the two decision cells, trimmed and upper-cased; and
      `row.get('local_folder', album_id)`, how the summary names the row. */
  datatype Marks = Marks(albumId: string, approve: string, reject: string, name: string)

  function MarksOf(row: Row): Marks {
    var id := Strip(Cell(row, "album_id"));
    Marks(id, Upper(Strip(Cell(row, "APPROVE"))), Upper(Strip(Cell(row, "REJECT"))),
          if "local_folder" in row then row["local_folder"] else id)
  }

  /** What a resolved row does: approve, reject or leave the album as it is. */
  datatype Verdict = Approve | Reject | Keep

  /** APPROVE is read first, so a row ticked in both columns approves. */
  function VerdictOf(m: Marks): Verdict {
    if m.approve in Ticks then Approve
    else if m.reject in Ticks then Reject
    else Keep
  }

  /** A tick in APPROVE approves whatever REJECT holds; REJECT decides only
      when APPROVE is not ticked; a row with neither changes nothing. */
  lemma VerdictCases(m: Marks)
    ensures VerdictOf(m) == Approve <==> m.approve in Ticks
    ensures VerdictOf(m) == Reject <==> m.approve !in Ticks && m.reject in Ticks
    ensures VerdictOf(m) == Keep <==> m.approve !in Ticks && m.reject !in Ticks
  {
  }

  /** The status a verdict writes; `Keep` writes none. */
  function StatusOf(v: Verdict): Option<string> {
    match v
    case Approve => Some("approved")
    case Reject => Some("rejected")
    case Keep => None
  }

  function Keys(q: Queue): (ks: seq<string>)
    ensures |ks| == |q| && forall i :: 0 <= i < |q| ==> ks[i] == q[i].0
  {
    if q == [] then [] else [q[0].0] + Keys(q[1..])
  }

  // ------------------------------------------------------ finding the album

  /** The position of the first id that starts with `prefix`. */
  function FirstMatch(keys: seq<string>, prefix: string): (r: Option<nat>)
    ensures r.Some? ==> r.value < |keys| && StartsWith(keys[r.value], prefix)
                        && forall j :: 0 <= j < r.value ==> !StartsWith(keys[j], prefix)
    ensures r.None? <==> forall j :: 0 <= j < |keys| ==> !StartsWith(keys[j], prefix)
  {
    if keys == [] then None
    else if StartsWith(keys[0], prefix) then Some(0)
    else
      var r := FirstMatch(keys[1..], prefix);
      if r.Some? then Some(r.value + 1) else None
  }

  /** The loop over the queue's ids that stops at the first one starting
      with the row's id. */
  method FindFullId(keys: seq<string>, prefix: string) returns (found: Option<nat>)
    ensures found == FirstMatch(keys, prefix)
  {
    found := None;
    var i := 0;
    while i < |keys|
      invariant 0 <= i <= |keys|
      invariant forall j :: 0 <= j < i ==> !StartsWith(keys[j], prefix)
    {
      if StartsWith(keys[i], prefix) {
        found := Some(i);
        FirstMatchAt(keys, prefix, i);
        return;
      }
      i := i + 1;
    }
    FirstMatchNone(keys, prefix);
  }

  lemma {:induction false} FirstMatchAt(keys: seq<string>, prefix: string, i: nat)
    requires i < |keys| && StartsWith(keys[i], prefix)
    requires forall j :: 0 <= j < i ==> !StartsWith(keys[j], prefix)
    ensures FirstMatch(keys, prefix) == Some(i)
  {
    if i > 0 {
      FirstMatchAt(keys[1..], prefix, i - 1);
    }
  }

  lemma FirstMatchNone(keys: seq<string>, prefix: string)
    requires forall j :: 0 <= j < |keys| ==> !StartsWith(keys[j], prefix)
    ensures FirstMatch(keys, prefix) == None
  {
  }

  /** The queue position a row resolves to: none when no id starts with the
      row's id, and none when the id found is empty, since the empty id
      reads as not found. */
  function Target(keys: seq<string>, m: Marks): (t: Option<nat>)
    ensures t.Some? ==> t.value < |keys| && keys[t.value] != [] && StartsWith(keys[t.value], m.albumId)
  {
    var f := FirstMatch(keys, m.albumId);
    if f.Some? && keys[f.value] != [] then f else None
  }

  /** An empty id in the spreadsheet resolves to the first album of the queue. */
  lemma EmptyIdTakesFirst(keys: seq<string>, m: Marks)
    requires keys != [] && keys[0] != [] && m.albumId == []
    ensures Target(keys, m) == Some(0)
  {
    assert StartsWith(keys[0], m.albumId);
  }

  // ------------------------------------------------------- the whole sheet

  /** The labels of the resolved rows with verdict `v`, in row order. */
  function Labels(keys: seq<string>, rows: seq<Marks>, v: Verdict): (r: seq<string>)
    ensures |r| <= |rows|
  {
    if rows == [] then []
    else
      var row := rows[|rows| - 1];
      Labels(keys, rows[..|rows| - 1], v) +
        (if Target(keys, row).Some? && VerdictOf(row) == v then [row.name] else [])
  }

  /** The number of rows that resolve to an album. */
  function Resolved(keys: seq<string>, rows: seq<Marks>): (n: nat)
    ensures n <= |rows|
  {
    if rows == [] then 0
    else Resolved(keys, rows[..|rows| - 1]) + (if Target(keys, rows[|rows| - 1]).Some? then 1 else 0)
  }

  /** Every resolved row is counted once: approved, rejected or untouched. */
  lemma {:induction false} EveryResolvedRowCounted(keys: seq<string>, rows: seq<Marks>)
    ensures |Labels(keys, rows, Approve)| + |Labels(keys, rows, Reject)| + |Labels(keys, rows, Keep)|
            == Resolved(keys, rows)
  {
    if rows != [] {
      EveryResolvedRowCounted(keys, rows[..|rows| - 1]);
    }
  }

  /** The status the last deciding row for album `i` wrote, if any. */
  function FinalStatus(keys: seq<string>, rows: seq<Marks>, i: nat): Option<string> {
    if rows == [] then None
    else
      var row := rows[|rows| - 1];
      if Target(keys, row) == Some(i) && VerdictOf(row) != Keep then StatusOf(VerdictOf(row))
      else FinalStatus(keys, rows[..|rows| - 1], i)
  }

  /** An album whose last deciding row approves it ends approved, and one whose
      last deciding row rejects it ends rejected. */
  lemma LastDecisionWins(keys: seq<string>, rows: seq<Marks>, k: nat, i: nat)
    requires k < |rows| && Target(keys, rows[k]) == Some(i) && VerdictOf(rows[k]) != Keep
    requires forall j :: k < j < |rows| ==> Target(keys, rows[j]) != Some(i) || VerdictOf(rows[j]) == Keep
    ensures FinalStatus(keys, rows, i) == StatusOf(VerdictOf(rows[k]))
    decreases |rows|
  {
    if k < |rows| - 1 {
      var init := rows[..|rows| - 1];
      assert forall j :: k < j < |init| ==> init[j] == rows[j];
      LastDecisionWins(keys, init, k, i);
    }
  }

  /** An album no row decides keeps its status. */
  lemma {:induction false} UndecidedKept(keys: seq<string>, rows: seq<Marks>, i: nat)
    requires forall j :: 0 <= j < |rows| ==> Target(keys, rows[j]) != Some(i) || VerdictOf(rows[j]) == Keep
    ensures FinalStatus(keys, rows, i) == None
  {
    if rows != [] {
      var init := rows[..|rows| - 1];
      assert forall j :: 0 <= j < |init| ==> init[j] == rows[j];
      UndecidedKept(keys, init, i);
    }
  }

  /** The entry with `status` set, when there is one to set. */
  function WithStatus(entry: Json.Obj, status: Option<string>): (r: Json.Obj)
    ensures forall f :: f != "status" ==> (f in r <==> f in entry) && (f in entry ==> r[f] == entry[f])
    ensures status.Some? ==> "status" in r && r["status"] == Json.Str(status.value)
    ensures status.None? ==> r == entry
  {
    if status.Some? then entry["status" := Json.Str(status.value)] else entry
  }

  /** The marks of every row of the spreadsheet, in order. */
  function ReadSheet(sheet: seq<Row>): (ms: seq<Marks>)
    ensures |ms| == |sheet| && forall i :: 0 <= i < |sheet| ==> ms[i] == MarksOf(sheet[i])
  {
    seq(|sheet|, i requires 0 <= i < |sheet| => MarksOf(sheet[i]))
  }

  /** The state after the rows `done`: every album carries the status its
      last deciding row wrote, and the three lists hold the labels so far. */
  ghost predicate Reviewed(queue: Queue, done: seq<Marks>, updated: Queue,
                           approved: seq<string>, rejected: seq<string>, untouched: seq<string>)
  {
    |updated| == |queue| &&
    (forall i :: 0 <= i < |queue| ==>
       updated[i] == (queue[i].0, WithStatus(queue[i].1, FinalStatus(Keys(queue), done, i)))) &&
    approved == Labels(Keys(queue), done, Approve) &&
    rejected == Labels(Keys(queue), done, Reject) &&
    untouched == Labels(Keys(queue), done, Keep)
  }

  /** `main()`: each row is resolved to an album of the queue; a ticked
      APPROVE sets its status to "approved", otherwise a ticked REJECT sets it
      to "rejected", otherwise it is left alone, and the row's label is added
      to the matching summary list. Rows that resolve to no album are skipped.
      Reading the spreadsheet and loading and saving the queue are I/O. */
  method ProcessReview(queue: Queue, sheet: seq<Row>)
    returns (updated: Queue, approved: seq<string>, rejected: seq<string>, untouched: seq<string>)
    ensures |updated| == |queue|
    ensures forall i :: 0 <= i < |queue| ==>
              updated[i] == (queue[i].0, WithStatus(queue[i].1, FinalStatus(Keys(queue), ReadSheet(sheet), i)))
    ensures approved == Labels(Keys(queue), ReadSheet(sheet), Approve)
    ensures rejected == Labels(Keys(queue), ReadSheet(sheet), Reject)
    ensures untouched == Labels(Keys(queue), ReadSheet(sheet), Keep)
  {
    var keys := Keys(queue);
    ghost var rows := ReadSheet(sheet);
    ghost var done: seq<Marks> := [];
    updated := queue;
    approved, rejected, untouched := [], [], [];
    var n := 0;
    while n < |sheet|
      invariant 0 <= n <= |sheet|
      invariant done == rows[..n]
      invariant Reviewed(queue, done, updated, approved, rejected, untouched)
    {
      var m := MarksOf(sheet[n]);
      updated, approved, rejected, untouched :=
        ReviewRow(keys, queue, done, m, updated, approved, rejected, untouched);
      PrefixSnoc(rows, n);
      done := done + [m];
      n := n + 1;
    }
    assert done == rows;
  }

  lemma PrefixSnoc<T>(s: seq<T>, i: nat)
    requires i < |s|
    ensures s[..i + 1] == s[..i] + [s[i]]
  {
  }

  /** One pass of the loop body of `main()`, on the row with marks `m`. */
  method ReviewRow(keys: seq<string>, queue: Queue, ghost done: seq<Marks>, m: Marks,
                   updated: Queue, approved: seq<string>, rejected: seq<string>, untouched: seq<string>)
    returns (updated': Queue, approved': seq<string>, rejected': seq<string>, untouched': seq<string>)
    requires keys == Keys(queue)
    requires Reviewed(queue, done, updated, approved, rejected, untouched)
    ensures Reviewed(queue, done + [m], updated', approved', rejected', untouched')
  {
    LabelsStep(keys, done, m, Approve);
    LabelsStep(keys, done, m, Reject);
    LabelsStep(keys, done, m, Keep);
    updated', approved', rejected', untouched' := updated, approved, rejected, untouched;
    var found := FindFullId(keys, m.albumId);
    if found.None? || keys[found.value] == [] {
      assert Target(keys, m) == None;
      forall i | 0 <= i < |queue|
        ensures updated'[i] == (queue[i].0, WithStatus(queue[i].1, FinalStatus(keys, done + [m], i)))
      {
        StatusStep(keys, done, m, i);
      }
    } else {
      var idx := found.value;
      assert Target(keys, m) == Some(idx);
      var verdict := Decide(m);
      if verdict == Keep {
        untouched' := untouched + [m.name];
        forall i | 0 <= i < |queue|
          ensures updated'[i] == (queue[i].0, WithStatus(queue[i].1, FinalStatus(keys, done + [m], i)))
        {
          StatusStep(keys, done, m, i);
        }
      } else {
        var status := if verdict == Approve then "approved" else "rejected";
        assert StatusOf(verdict) == Some(status);
        updated' := SetStatus(updated, idx, status);
        if verdict == Approve {
          approved' := approved + [m.name];
        } else {
          rejected' := rejected + [m.name];
        }
        forall i | 0 <= i < |queue|
          ensures updated'[i] == (queue[i].0, WithStatus(queue[i].1, FinalStatus(keys, done + [m], i)))
        {
          StatusStep(keys, done, m, i);
          if i == idx {
            WithStatusTwice(queue[i].1, FinalStatus(keys, done, i), status);
          }
        }
      }
    }
  }

  /** The status after one more row: the row's own, when it decides album
      `i`, and the earlier one otherwise. */
  lemma StatusStep(keys: seq<string>, done: seq<Marks>, m: Marks, i: nat)
    ensures FinalStatus(keys, done + [m], i)
            == if Target(keys, m) == Some(i) && VerdictOf(m) != Keep then StatusOf(VerdictOf(m))
               else FinalStatus(keys, done, i)
  {
    assert (done + [m])[..|done|] == done;
  }

  /** The labels after one more row. */
  lemma LabelsStep(keys: seq<string>, done: seq<Marks>, m: Marks, v: Verdict)
    ensures Labels(keys, done + [m], v)
            == Labels(keys, done, v) + (if Target(keys, m).Some? && VerdictOf(m) == v then [m.name] else [])
  {
    assert (done + [m])[..|done|] == done;
  }

  /** Setting the status again overwrites whatever status was set before. */
  lemma WithStatusTwice(entry: Json.Obj, before: Option<string>, status: string)
    ensures WithStatus(entry, before)["status" := Json.Str(status)] == WithStatus(entry, Some(status))
  {
  }

  /** The two tests of the loop body: APPROVE first, then REJECT. */
  method Decide(m: Marks) returns (v: Verdict)
    ensures v == VerdictOf(m)
  {
    if m.approve in Ticks {
      v := Approve;
    } else if m.reject in Ticks {
      v := Reject;
    } else {
      v := Keep;
    }
  }

  /** `queue[full_id]['status'] = status`. */
  method SetStatus(q: Queue, idx: nat, status: string) returns (q': Queue)
    requires idx < |q|
    ensures |q'| == |q| && q'[idx] == (q[idx].0, q[idx].1["status" := Json.Str(status)])
    ensures forall i :: 0 <= i < |q| && i != idx ==> q'[i] == q[i]
  {
    q' := q[idx := (q[idx].0, q[idx].1["status" := Json.Str(status)])];
  }
}
