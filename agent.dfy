/** The base of every processing agent: a batch driver that counts each
    item's outcome, keeps going after an item fails, and delegates album
    state to the state store. What an agent does to one item is the
    `process` parameter; the wall-clock duration and the log lines are not
    modelled. */
module Agent {
  import Json
  import State
  import opened Wrappers

  /** What one call of `process` does: return a result object, or raise. */
  datatype Attempt = Returned(result: Json.Obj) | Raised(message: string)

  datatype Tally = Succeeded | Skipped | Failed

  /** The counter an attempt bumps: status "success" and "skipped" are
      counted as such; any other status, a missing one, or an exception
      counts as failed. */
  function TallyOf(a: Attempt): (t: Tally)
    ensures t == Succeeded <==> a.Returned? && "status" in a.result && a.result["status"] == Json.Str("success")
    ensures t == Skipped <==> a.Returned? && "status" in a.result && a.result["status"] == Json.Str("skipped")
    ensures a.Raised? ==> t == Failed
  {
    if a.Raised? then Failed
    else if Json.Get(a.result, "status", Json.Null) == Json.Str("success") then Succeeded
    else if Json.Get(a.result, "status", Json.Null) == Json.Str("skipped") then Skipped
    else Failed
  }

  /** The error record appended for an exception raised while handling an
      item. */
  function ErrorEntry(item: Json.Obj, message: string): (e: Json.Obj)
    ensures e.Keys == {"path", "status", "error"} && e["status"] == Json.Str("error")
    ensures e["path"] == Json.Get(item, "path", Json.Null) && e["error"] == Json.Str(message)
  {
    map["path" := Json.Get(item, "path", Json.Null), "status" := Json.Str("error"), "error" := Json.Str(message)]
  }

  /** The entry appended to `items` for the attempt: the result itself, or
      an error record naming the item's path. */
  function EntryOf(item: Json.Obj, a: Attempt): (e: Json.Obj)
    ensures a.Returned? ==> e == a.result
    ensures a.Raised? ==> e.Keys == {"path", "status", "error"} && e["status"] == Json.Str("error")
                          && e["path"] == Json.Get(item, "path", Json.Null) && e["error"] == Json.Str(a.message)
  {
    match a
    case Returned(result) => result
    case Raised(message) => ErrorEntry(item, message)
  }

  /** The optional `callback(item, result, index)`: what it does is not
      modelled, only whether it raises, and with which message. */
  type Callback = (Json.Obj, Json.Obj, nat) -> Option<string>

  /** The exception the callback raises for the item at `i`: none without a
      callback or when `process` raised, since the callback runs only after
      a result is returned. */
  function CallbackRaise(callback: Option<Callback>, item: Json.Obj, a: Attempt, i: nat): (m: Option<string>)
    ensures m.Some? ==> a.Returned? && callback.Some? && callback.value(item, a.result, i) == m
    ensures a.Returned? && callback.Some? ==> m == callback.value(item, a.result, i)
  {
    if a.Returned? && callback.Some? then callback.value(item, a.result, i) else None
  }

  /** The entries one item adds: its attempt's entry, then an error record
      when the callback raised after it. */
  function ItemEntries(item: Json.Obj, a: Attempt, raised: Option<string>): (es: seq<Json.Obj>)
    ensures |es| == if raised.Some? then 2 else 1
    ensures es[0] == EntryOf(item, a)
    ensures raised.Some? ==> es[1] == ErrorEntry(item, raised.value)
  {
    [EntryOf(item, a)] + (if raised.Some? then [ErrorEntry(item, raised.value)] else [])
  }

  /** How many of the items' attempts land on counter `t`. */
  function CountTally(items: seq<Json.Obj>, process: Json.Obj -> Attempt, t: Tally): (n: nat)
    ensures n <= |items|
  {
    if items == [] then 0
    else CountTally(items[..|items| - 1], process, t) + (if TallyOf(process(items[|items| - 1])) == t then 1 else 0)
  }

  /** How many items' callbacks raise. */
  function CallbackFailures(items: seq<Json.Obj>, process: Json.Obj -> Attempt, callback: Option<Callback>): (n: nat)
    ensures n <= |items|
    ensures callback.None? ==> n == 0
  {
    if items == [] then 0
    else
      var k := |items| - 1;
      CallbackFailures(items[..k], process, callback) + (if CallbackRaise(callback, items[k], process(items[k]), k).Some? then 1 else 0)
  }

  /** The `items` list of a batch: each item's entries, in item order. */
  function BatchEntries(items: seq<Json.Obj>, process: Json.Obj -> Attempt, callback: Option<Callback>): (es: seq<Json.Obj>)
    ensures |es| == |items| + CallbackFailures(items, process, callback)
  {
    if items == [] then []
    else
      var k := |items| - 1;
      BatchEntries(items[..k], process, callback) + ItemEntries(items[k], process(items[k]), CallbackRaise(callback, items[k], process(items[k]), k))
  }

  lemma CountTallyStep(items: seq<Json.Obj>, process: Json.Obj -> Attempt, callback: Option<Callback>, i: nat)
    requires i < |items|
    ensures forall t :: CountTally(items[..i + 1], process, t)
                        == CountTally(items[..i], process, t) + (if TallyOf(process(items[i])) == t then 1 else 0)
    ensures CallbackFailures(items[..i + 1], process, callback) == CallbackFailures(items[..i], process, callback)
      + (if CallbackRaise(callback, items[i], process(items[i]), i).Some? then 1 else 0)
    ensures BatchEntries(items[..i + 1], process, callback) == BatchEntries(items[..i], process, callback)
      + ItemEntries(items[i], process(items[i]), CallbackRaise(callback, items[i], process(items[i]), i))
  {
    assert items[..i + 1][..i] == items[..i];
  }

  /** Every item is counted on exactly one counter. */
  lemma {:induction false} CountsPartition(items: seq<Json.Obj>, process: Json.Obj -> Attempt)
    ensures CountTally(items, process, Succeeded) + CountTally(items, process, Skipped)
            + CountTally(items, process, Failed) == |items|
  {
    if items != [] {
      CountsPartition(items[..|items| - 1], process);
    }
  }

  /** Without a callback, or with one that never raises, each item adds
      exactly its attempt's entry. */
  lemma {:induction false} QuietCallbackEntries(items: seq<Json.Obj>, process: Json.Obj -> Attempt, callback: Option<Callback>)
    requires forall i :: 0 <= i < |items| ==> CallbackRaise(callback, items[i], process(items[i]), i).None?
    ensures CallbackFailures(items, process, callback) == 0
    ensures |BatchEntries(items, process, callback)| == |items|
    ensures forall i :: 0 <= i < |items| ==> BatchEntries(items, process, callback)[i] == EntryOf(items[i], process(items[i]))
  {
    if items != [] {
      var k := |items| - 1;
      var init := items[..k];
      assert forall i :: 0 <= i < k ==> init[i] == items[i];
      QuietCallbackEntries(init, process, callback);
      var before := BatchEntries(init, process, callback);
      var last := ItemEntries(items[k], process(items[k]), CallbackRaise(callback, items[k], process(items[k]), k));
      assert last == [EntryOf(items[k], process(items[k]))];
      assert BatchEntries(items, process, callback) == before + last;
    }
  }

  /** A successful item whose callback raises is counted both as a success
      and as a failure, and adds two entries. */
  lemma RaisingCallbackCountsTwice(item: Json.Obj, process: Json.Obj -> Attempt, callback: Option<Callback>, message: string)
    requires process(item).Returned? && Json.Get(process(item).result, "status", Json.Null) == Json.Str("success")
    requires callback.Some? && callback.value(item, process(item).result, 0) == Some(message)
    ensures CountTally([item], process, Succeeded) == 1
    ensures CountTally([item], process, Failed) + CallbackFailures([item], process, callback) == 1
    ensures BatchEntries([item], process, callback) == [process(item).result, ErrorEntry(item, message)]
  {
    assert [item][..0] == [];
  }

  datatype BatchSummary = BatchSummary(total: nat, success: nat, failed: nat, skipped: nat, items: seq<Json.Obj>)

  /** One pass of the batch loop for the item at `i`: the attempt's entry is
      appended and the counter of its outcome goes up by one; when the
      callback then raises, `failed` goes up as well and an error record is
      appended. */
  method RecordAttempt(r: BatchSummary, item: Json.Obj, a: Attempt, callback: Option<Callback>, i: nat) returns (r': BatchSummary)
    ensures r'.total == r.total
    ensures r'.items == r.items + ItemEntries(item, a, CallbackRaise(callback, item, a, i))
    ensures r'.success == r.success + (if TallyOf(a) == Succeeded then 1 else 0)
    ensures r'.skipped == r.skipped + (if TallyOf(a) == Skipped then 1 else 0)
    ensures r'.failed == r.failed + (if TallyOf(a) == Failed then 1 else 0)
      + (if CallbackRaise(callback, item, a, i).Some? then 1 else 0)
  {
    r' := r;
    match a {
      case Returned(result) =>
        var status := Json.Get(result, "status", Json.Null);
        if status == Json.Str("success") {
          r' := r'.(success := r'.success + 1);
        } else if status == Json.Str("skipped") {
          r' := r'.(skipped := r'.skipped + 1);
        } else {
          r' := r'.(failed := r'.failed + 1);
        }
        r' := r'.(items := r'.items + [result]);
        if callback.Some? {
          var raised := callback.value(item, result, i);
          if raised.Some? {
            r' := r'.(failed := r'.failed + 1);
            r' := r'.(items := r'.items + [ErrorEntry(item, raised.value)]);
          }
        }
      case Raised(message) =>
        r' := r'.(failed := r'.failed + 1);
        r' := r'.(items := r'.items + [ErrorEntry(item, message)]);
    }
  }

  class BaseAgent {
    const name: string
    const state: State.StateStore

    constructor (name: string, state: State.StateStore)
      ensures this.name == name && this.state == state
    {
      this.name := name;
      this.state := state;
    }

    /** `process_batch`: every item is processed in order and an item that
        raises is counted as failed without stopping the batch. A callback
        that raises after a returned result adds a failure and an error
        record on top of the result already counted. */
    method ProcessBatch(items: seq<Json.Obj>, process: Json.Obj -> Attempt, callback: Option<Callback>) returns (r: BatchSummary)
      ensures r.total == |items|
      ensures r.items == BatchEntries(items, process, callback)
      ensures r.success == CountTally(items, process, Succeeded)
      ensures r.skipped == CountTally(items, process, Skipped)
      ensures r.failed == CountTally(items, process, Failed) + CallbackFailures(items, process, callback)
      ensures r.success + r.skipped + r.failed == r.total + CallbackFailures(items, process, callback)
    {
      r := BatchSummary(|items|, 0, 0, 0, []);
      for i := 0 to |items|
        invariant r.total == |items|
        invariant r.items == BatchEntries(items[..i], process, callback)
        invariant r.success == CountTally(items[..i], process, Succeeded)
        invariant r.skipped == CountTally(items[..i], process, Skipped)
        invariant r.failed == CountTally(items[..i], process, Failed) + CallbackFailures(items[..i], process, callback)
      {
        CountTallyStep(items, process, callback, i);
        r := RecordAttempt(r, items[i], process(items[i]), callback, i);
      }
      assert items[..|items|] == items;
      CountsPartition(items, process);
    }

    /** `save_state`: the store's `save_album_state`. */
    method SaveState(albumPath: string, status: string, data: Json.Obj, now: string)
      requires State.DigestOk(state.digest)
      modifies state`albums
      ensures state.albums == old(state.albums)[State.AlbumId(state.digest, albumPath) :=
                State.SavedRecord(old(state.GetAlbumState(albumPath)), State.AlbumId(state.digest, albumPath),
                                  albumPath, status, data, now)]
      ensures GetState(albumPath).Some? && GetState(albumPath).value.status == status
    {
      state.SaveAlbumState(albumPath, status, data, now);
    }

    /** `get_state`: the store's `get_album_state`. */
    function GetState(albumPath: string): (r: Option<State.AlbumRecord>)
      reads state
      requires State.DigestOk(state.digest)
      ensures r.Some? <==> State.AlbumId(state.digest, albumPath) in state.albums
      ensures r.Some? ==> r.value == state.albums[State.AlbumId(state.digest, albumPath)]
    {
      state.GetAlbumState(albumPath)
    }
  }
}
