/** What the two pipeline drivers (the command-line handlers and the
    orchestrator class) share: a pass over a list of queue items that moves
    some of them to a new status, the counters such a pass keeps, the
    validator input built from a queue entry, and the audio-folder test. */
module Transitions {
  import opened Wrappers
  import opened Text
  import Json
  import Queue
  import Validator
  import Fixer
  import Scanner

  // ------------------------------------------------------ status moves

  /** What a pass does to one item: nothing, or `update_status(id, status,
      metadata=patch)`. */
  datatype Move = Stay | MoveTo(status: Queue.AlbumStatus, patch: Json.Obj)

  /** The entry after a move: the status is set and the patch merged into
      the metadata, patch keys winning; path, priority and creation time
      are kept. */
  function Moved(e: Queue.Entry, m: Move, now: string): (r: Queue.Entry)
    ensures m.Stay? ==> r == e
    ensures m.MoveTo? ==> r.status == m.status.Name() && r.updatedAt == now
                          && r.path == e.path && r.priority == e.priority && r.addedAt == e.addedAt
                          && r.metadata.Keys == e.metadata.Keys + m.patch.Keys
                          && (forall k :: k in m.patch ==> r.metadata[k] == m.patch[k])
                          && (forall k :: k in e.metadata && k !in m.patch ==> r.metadata[k] == e.metadata[k])
  {
    if m.Stay? then e else e.(status := m.status.Name(), updatedAt := now, metadata := e.metadata + m.patch)
  }

  /** Moving an entry twice the same way is moving it once. */
  lemma MovedTwice(e: Queue.Entry, m: Move, now: string)
    ensures Moved(Moved(e, m, now), m, now) == Moved(e, m, now)
  {
    if m.MoveTo? {
      assert (e.metadata + m.patch) + m.patch == e.metadata + m.patch;
    }
  }

  /** The queue after one item's move; an id the queue does not hold is
      left alone, as `update_status` does. */
  function Step(entries: map<string, Queue.Entry>, x: Queue.Item, move: Queue.Item -> Move, now: string)
    : (r: map<string, Queue.Entry>)
    ensures r.Keys == entries.Keys
  {
    if x.id in entries then entries[x.id := Moved(entries[x.id], move(x), now)] else entries
  }

  /** The queue after the moves of `items`, in order. */
  function ApplyMoves(entries: map<string, Queue.Entry>, items: seq<Queue.Item>,
                      move: Queue.Item -> Move, now: string): (r: map<string, Queue.Entry>)
    ensures r.Keys == entries.Keys
  {
    if items == [] then entries
    else Step(ApplyMoves(entries, items[..|items| - 1], move, now), items[|items| - 1], move, now)
  }

  lemma ApplyMovesStep(entries: map<string, Queue.Entry>, items: seq<Queue.Item>, move: Queue.Item -> Move,
                       now: string, k: nat)
    requires k < |items|
    ensures ApplyMoves(entries, items[..k + 1], move, now) == Step(ApplyMoves(entries, items[..k], move, now), items[k], move, now)
  {
    assert items[..k + 1][..k] == items[..k];
  }

  /** For items read from the queue itself, the pass leaves every item's
      entry moved exactly once (a repeated item is moved the same way
      again, which changes nothing), and every other entry as it was. */
  lemma {:induction false} ApplyMovesEffect(entries: map<string, Queue.Entry>, items: seq<Queue.Item>,
                                            move: Queue.Item -> Move, now: string)
    requires forall x :: x in items ==> x.id in entries && entries[x.id] == x.entry
    ensures forall x :: x in items ==> ApplyMoves(entries, items, move, now)[x.id] == Moved(x.entry, move(x), now)
    ensures forall id :: id in entries && (forall x :: x in items ==> x.id != id)
                         ==> ApplyMoves(entries, items, move, now)[id] == entries[id]
  {
    if items != [] {
      var front := items[..|items| - 1];
      var last := items[|items| - 1];
      assert forall x :: x in front ==> x in items;
      ApplyMovesEffect(entries, front, move, now);
      var before := ApplyMoves(entries, front, move, now);
      var after := ApplyMoves(entries, items, move, now);
      assert after == before[last.id := Moved(before[last.id], move(last), now)];
      assert before[last.id] == last.entry || before[last.id] == Moved(last.entry, move(last), now) by {
        if exists y :: y in front && y.id == last.id {
          var y :| y in front && y.id == last.id;
          assert y == last;
        }
      }
      MovedTwice(last.entry, move(last), now);
      forall x | x in items
        ensures after[x.id] == Moved(x.entry, move(x), now)
      {
        if x.id == last.id {
          assert x == last;
        } else {
          assert x in front by { assert x == last || x in front; }
        }
      }
    }
  }

  // ---------------------------------------------------------- counters

  /** How many items `bucket` sends to `b`. */
  function Count<B(==)>(items: seq<Queue.Item>, bucket: Queue.Item -> B, b: B): (n: nat)
    ensures n <= |items|
  {
    if items == [] then 0
    else Count(items[..|items| - 1], bucket, b) + (if bucket(items[|items| - 1]) == b then 1 else 0)
  }

  lemma CountStep<B>(items: seq<Queue.Item>, bucket: Queue.Item -> B, k: nat)
    requires k < |items|
    ensures forall b :: Count(items[..k + 1], bucket, b) == Count(items[..k], bucket, b) + (if bucket(items[k]) == b then 1 else 0)
  {
    assert items[..k + 1][..k] == items[..k];
  }

  // --------------------------------------------------------- selection

  /** The ready items whose id starts with `prefix` (`--album` on the
      command line); an empty prefix selects everything. */
  function SelectByPrefix(ready: seq<Queue.Item>, prefix: string): (r: seq<Queue.Item>)
    ensures forall x :: x in r <==> x in ready && StartsWith(x.id, prefix)
    ensures |r| <= |ready|
  {
    if ready == [] then []
    else SelectByPrefix(ready[..|ready| - 1], prefix)
         + (if StartsWith(ready[|ready| - 1].id, prefix) then [ready[|ready| - 1]] else [])
  }

  // ------------------------------------------------- validator input

  /** `metadata.get(key) or fallback` for a text field. */
  function TextOr(metadata: Json.Obj, key: string, fallback: string): (r: string)
    ensures key in metadata && metadata[key].Str? && metadata[key].s != [] ==> r == metadata[key].s
    ensures !(key in metadata && metadata[key].Str? && metadata[key].s != []) ==> r == fallback
  {
    var v := Json.Get(metadata, key, Json.Null);
    if v.Str? && v.s != [] then v.s else fallback
  }

  /** The `validation_data` both drivers build from a SCANNED queue item:
      the title falls back to the folder name, the artist to "Various
      Artists", the track count to 0 and the cover flag to false. */
  function ValidationInput(x: Queue.Item): (v: Validator.Item)
    ensures v.path == x.entry.path && v.albumId == x.id && v.folderName == []
    ensures v.title == TextOr(x.entry.metadata, "title", Fixer.BaseName(x.entry.path))
    ensures v.artist == Some(TextOr(x.entry.metadata, "artist", "Various Artists"))
    ensures v.title != [] || Fixer.BaseName(x.entry.path) == []
  {
    var m := x.entry.metadata;
    var count := Json.Get(m, "track_count", Json.Int(0));
    var cover := Json.Get(m, "has_cover", Json.Bool(false));
    Validator.Item(x.entry.path, TextOr(m, "title", Fixer.BaseName(x.entry.path)), [],
                   Some(TextOr(m, "artist", "Various Artists")),
                   if count.Int? then count.i else 0, x.id, if cover.Bool? then cover.b else false)
  }

  /** `validation.get('corrections', [])` is non-empty, for the item's
      stored `validation` record (absent reads as `{}`). */
  predicate HasCorrections(x: Queue.Item) {
    var validation := Json.Get(x.entry.metadata, "validation", Json.Object(map[]));
    validation.Object? && Json.Truthy(Json.Get(validation.fields, "corrections", Json.List([])))
  }

  // ------------------------------------------------------ audio folders

  /** `_has_audio_files`: the folder holds a file whose lower-cased suffix
      is an audio extension. */
  method HasAudioFiles(listing: seq<Scanner.DirEntry>, extensions: set<string>) returns (r: bool)
    ensures r <==> exists e :: e in listing && Scanner.IsAudio(e, extensions)
  {
    for i := 0 to |listing|
      invariant forall j :: 0 <= j < i ==> !Scanner.IsAudio(listing[j], extensions)
    {
      if listing[i].isFile && Lower(Scanner.Suffix(listing[i].name)) in extensions {
        assert Scanner.IsAudio(listing[i], extensions);
        return true;
      }
    }
    return false;
  }
}
