/** The persistent state store: one record per album (a JSON file named
    after the album id), a session file with nested statistics, an error
    ledger and checkpoints. Files are modelled as the fields of a class;
    a file that fails to parse is not modelled (it reads as absent). The
    clock is a `now` parameter and md5 is the uninterpreted `digest`. */
module State {
  import opened Wrappers
  import Text
  import Json

  /** `hashlib.md5(path).hexdigest()`: 32 hexadecimal characters. */
  ghost predicate DigestOk(digest: string -> string) {
    forall p :: |digest(p)| == 32
  }

  /** `get_album_id`: the first 12 characters of the path's digest. Being a
      function of the path, it is deterministic. */
  function AlbumId(digest: string -> string, path: string): (id: string)
    requires DigestOk(digest)
    ensures |id| == 12
    ensures id <= digest(path)
  {
    digest(path)[..12]
  }

  datatype Phase = Phase(timestamp: string, result: Json.Obj)

  /** The record in `albums/<id>.json`. */
  datatype AlbumRecord = AlbumRecord(
    albumId: string, path: string, createdAt: string,
    status: string, updatedAt: string, phases: map<string, Phase>)

  /** `save_album_state`'s update of the loaded record (or of a fresh one
      when none exists): the status is set and the phase named by the
      lower-cased status is replaced; nothing else in the record changes. */
  function SavedRecord(existing: Option<AlbumRecord>, id: string, path: string,
                       status: string, data: Json.Obj, now: string): (r: AlbumRecord)
    ensures r.status == status && r.updatedAt == now
    ensures Text.Lower(status) in r.phases && r.phases[Text.Lower(status)] == Phase(now, data)
    ensures existing.Some? ==> r.albumId == existing.value.albumId && r.path == existing.value.path
                               && r.createdAt == existing.value.createdAt
    ensures existing.Some? ==>
              forall k :: k in existing.value.phases && k != Text.Lower(status) ==> k in r.phases && r.phases[k] == existing.value.phases[k]
    ensures existing.Some? ==> r.phases.Keys == existing.value.phases.Keys + {Text.Lower(status)}
    ensures existing.None? ==> r.albumId == id && r.path == path && r.createdAt == now
                               && r.phases.Keys == {Text.Lower(status)}
  {
    var base := if existing.Some? then existing.value
                else AlbumRecord(id, path, now, "", now, map[]);
    base.(status := status, updatedAt := now,
          phases := base.phases[Text.Lower(status) := Phase(now, data)])
  }

  /** Saving the same status and data twice gives the same status, result
      and phase set as saving once. */
  lemma SaveTwice(existing: Option<AlbumRecord>, id: string, path: string,
                  status: string, data: Json.Obj, now1: string, now2: string)
    ensures var once := SavedRecord(existing, id, path, status, data, now1);
            var twice := SavedRecord(Some(once), id, path, status, data, now2);
            twice.status == once.status
            && twice.phases[Text.Lower(status)].result == once.phases[Text.Lower(status)].result
            && twice.phases.Keys == once.phases.Keys
            && twice.createdAt == once.createdAt && twice.path == once.path
  {
  }

  // ----------------------------------------------------------- session

  function Counters(names: seq<string>): (m: Json.Obj)
    ensures forall k :: k in m <==> k in names
    ensures forall k :: k in m ==> m[k] == Json.Int(0)
  {
    if names == [] then map[] else Counters(names[1..])[names[0] := Json.Int(0)]
  }

  /** `_create_session`: every counter zero, no library root, status "new". */
  function NewSession(sessionId: string, now: string): (s: Json.Obj)
    ensures "status" in s && s["status"] == Json.Str("new")
    ensures "library_root" in s && s["library_root"] == Json.Null
    ensures "statistics" in s && s["statistics"].Object?
    ensures "errors" in s["statistics"].fields && s["statistics"].fields["errors"] == Json.Int(0)
    ensures "processed" in s["statistics"].fields && "pending" in s["statistics"].fields
  {
    map[
      "session_id" := Json.Str(sessionId),
      "started_at" := Json.Str(now),
      "library_root" := Json.Null,
      "status" := Json.Str("new"),
      "current_phase" := Json.Null,
      "statistics" := Json.Object(map[
        "total_artists" := Json.Int(0),
        "total_albums" := Json.Int(0),
        "total_tracks" := Json.Int(0),
        "processed" := Json.Object(Counters(["scanned", "validated", "reviewed", "fixed", "verified"])),
        "pending" := Json.Object(Counters(["scan", "validation", "review", "fix", "verify"])),
        "errors" := Json.Int(0)]),
      "last_checkpoint" := Json.Null]
  }

  /** The value at a key path, if every step is an object holding the key. */
  function GetPath(obj: Json.Obj, parts: seq<string>): Option<Json.Value>
    requires |parts| >= 1
    decreases |parts|
  {
    if parts[0] !in obj then None
    else if |parts| == 1 then Some(obj[parts[0]])
    else if obj[parts[0]].Object? then GetPath(obj[parts[0]].fields, parts[1..])
    else None
  }

  /** `target = target.setdefault(part, {})` for every part but the last, then
      `target[last] = value`. `None` is the `AttributeError` raised when an
      existing intermediate value is not an object. */
  function SetPath(obj: Json.Obj, parts: seq<string>, value: Json.Value): (r: Option<Json.Obj>)
    requires |parts| >= 1
    ensures r.Some? ==> GetPath(r.value, parts) == Some(value)
    ensures r.Some? ==> r.value.Keys == obj.Keys + {parts[0]}
    ensures r.Some? ==> forall k :: k in obj && k != parts[0] ==> r.value[k] == obj[k]
    ensures r.None? <==> |parts| > 1 && parts[0] in obj
                         && (!obj[parts[0]].Object? || SetPath(obj[parts[0]].fields, parts[1..], value).None?)
    decreases |parts|
  {
    if |parts| == 1 then Some(obj[parts[0] := value])
    else
      var child := if parts[0] in obj then obj[parts[0]] else Json.Object(map[]);
      if !child.Object? then None
      else
        var inner := SetPath(child.fields, parts[1..], value);
        if inner.None? then None else Some(obj[parts[0] := Json.Object(inner.value)])
  }

  /** `update_session_stats` for one keyword: a dotted key walks the nested
      statistics, a plain key sets a top-level statistic. */
  function UpdateStat(stats: Json.Obj, key: string, value: Json.Value): (r: Option<Json.Obj>)
    ensures '.' !in key ==> r == Some(stats[key := value])
    ensures r.Some? ==> GetPath(r.value, Text.SplitOn(key, '.')) == Some(value)
    ensures r.Some? ==> stats.Keys <= r.value.Keys
    ensures r.Some? ==> forall k :: k in stats && k != Text.SplitOn(key, '.')[0] ==> r.value[k] == stats[k]
  {
    if '.' in key then SetPath(stats, Text.SplitOn(key, '.'), value)
    else Some(stats[key := value])
  }

  /** All keyword updates in order; `None` if any of them raises. */
  function UpdateStats(stats: Json.Obj, updates: seq<(string, Json.Value)>): (r: Option<Json.Obj>)
    decreases |updates|
  {
    if updates == [] then Some(stats)
    else
      var first := UpdateStat(stats, updates[0].0, updates[0].1);
      if first.None? then None else UpdateStats(first.value, updates[1..])
  }

  /** A plain key touches only that statistic. */
  lemma PlainKeyUpdate(stats: Json.Obj, key: string, value: Json.Value)
    requires '.' !in key
    ensures UpdateStat(stats, key, value).Some?
    ensures UpdateStat(stats, key, value).value[key] == value
    ensures forall k :: k in stats && k != key ==> UpdateStat(stats, key, value).value[k] == stats[k]
  {
  }

  /** A two-part key `a.b` creates `a` when absent and sets `a.b` without
      touching the other members of `a` or the other statistics. */
  lemma TwoPartKeyUpdate(stats: Json.Obj, a: string, b: string, value: Json.Value)
    requires '.' !in a && '.' !in b
    requires a !in stats || stats[a].Object?
    ensures var r := UpdateStat(stats, a + "." + b, value);
            r.Some? && a in r.value && r.value[a].Object? && b in r.value[a].fields && r.value[a].fields[b] == value
            && (a in stats ==> forall k :: k in stats[a].fields && k != b ==> r.value[a].fields[k] == stats[a].fields[k])
            && forall k :: k in stats && k != a ==> r.value[k] == stats[k]
  {
    var key := a + "." + b;
    assert key[|a|] == '.';
    assert Text.BeforeFirst(key, '.') == a by {
      BeforeFirstAt(key, '.', a);
    }
    assert key[|a| + 1..] == b;
    assert Text.SplitOn(key, '.') == [a, b];
  }

  lemma {:induction false} BeforeFirstAt(s: string, sep: char, a: string)
    requires a <= s && sep !in a && |a| < |s| && s[|a|] == sep
    ensures Text.BeforeFirst(s, sep) == a
  {
    if a != [] {
      BeforeFirstAt(s[1..], sep, a[1..]);
    }
  }

  datatype ErrorEntry = ErrorEntry(timestamp: string, albumId: string, albumPath: string,
                                   errorType: string, message: string)

  datatype Checkpoint = Checkpoint(checkpointId: string, createdAt: string, session: Json.Obj, albumCount: nat)

  class StateStore {
    const digest: string -> string
    /** `albums/<id>.json`, by album id. */
    var albums: map<string, AlbumRecord>
    /** `session.json`, when present. */
    var session: Option<Json.Obj>
    /** `errors.json`; an absent file reads as the empty ledger. */
    var errors: seq<ErrorEntry>
    /** `checkpoints/checkpoint_<id>.json`. */
    var checkpoints: map<string, Checkpoint>

    constructor (digest: string -> string)
      requires DigestOk(digest)
      ensures this.digest == digest && albums == map[] && session == None
      ensures errors == [] && checkpoints == map[]
    {
      this.digest := digest;
      albums := map[];
      session := None;
      errors := [];
      checkpoints := map[];
    }

    /** `get_album_state`: the record stored under the path's id. */
    function GetAlbumState(path: string): (r: Option<AlbumRecord>)
      reads this
      requires DigestOk(digest)
      ensures r.Some? <==> AlbumId(digest, path) in albums
      ensures r.Some? ==> r.value == albums[AlbumId(digest, path)]
    {
      var id := AlbumId(digest, path);
      if id in albums then Some(albums[id]) else None
    }

    /** `get_album_status`: absent for a path never saved. */
    function GetAlbumStatus(path: string): (r: Option<string>)
      reads this
      requires DigestOk(digest)
      ensures r.None? <==> AlbumId(digest, path) !in albums
      ensures r.Some? ==> r.value == albums[AlbumId(digest, path)].status
    {
      var st := GetAlbumState(path);
      if st.Some? then Some(st.value.status) else None
    }

    /** `list_albums_by_status`: the records whose status is `status`, in no
        particular order (the original follows directory order). */
    function ListAlbumsByStatus(status: string): (r: set<AlbumRecord>)
      reads this
      ensures forall rec :: rec in r ==> rec.status == status && rec in albums.Values
      ensures forall id :: id in albums && albums[id].status == status ==> albums[id] in r
    {
      set rec | rec in albums.Values && rec.status == status
    }

    /** `save_album_state`. */
    method SaveAlbumState(path: string, status: string, data: Json.Obj, now: string)
      requires DigestOk(digest)
      modifies this`albums
      ensures albums == old(albums)[AlbumId(digest, path) :=
                SavedRecord(old(GetAlbumState(path)), AlbumId(digest, path), path, status, data, now)]
      ensures GetAlbumStatus(path) == Some(status)
    {
      var id := AlbumId(digest, path);
      var existing := GetAlbumState(path);
      albums := albums[id := SavedRecord(existing, id, path, status, data, now)];
    }

    /** `get_session`: the stored session, or a fresh one. */
    function GetSession(sessionId: string, now: string): (s: Json.Obj)
      reads this
      ensures session.Some? ==> s == session.value
      ensures session.None? ==> s == NewSession(sessionId, now)
    {
      if session.Some? then session.value else NewSession(sessionId, now)
    }

    /** `save_session`: always stamps `last_checkpoint`. */
    method SaveSession(s: Json.Obj, now: string)
      modifies this`session
      ensures session == Some(s["last_checkpoint" := Json.Str(now)])
    {
      session := Some(s["last_checkpoint" := Json.Str(now)]);
    }

    /** `update_session_stats`. A session without a statistics object, or an
        update that raises, leaves the stored session unchanged. */
    method UpdateSessionStats(updates: seq<(string, Json.Value)>, sessionId: string, now: string)
      returns (ok: bool)
      modifies this`session
      ensures var s := old(GetSession(sessionId, now));
              ok <==> "statistics" in s && s["statistics"].Object?
                      && UpdateStats(s["statistics"].fields, updates).Some?
      ensures ok ==> var s := old(GetSession(sessionId, now));
              session == Some(s["statistics" := Json.Object(UpdateStats(s["statistics"].fields, updates).value)]
                               ["last_checkpoint" := Json.Str(now)])
      ensures !ok ==> session == old(session)
    {
      var s := GetSession(sessionId, now);
      if "statistics" !in s || !s["statistics"].Object? {
        return false;
      }
      var stats := UpdateStats(s["statistics"].fields, updates);
      if stats.None? {
        return false;
      }
      SaveSession(s["statistics" := Json.Object(stats.value)], now);
      ok := true;
    }

    /** `create_checkpoint`: the session and the number of album records. */
    method CreateCheckpoint(checkpointId: string, sessionId: string, now: string) returns (id: string)
      modifies this`checkpoints
      ensures id == checkpointId
      ensures checkpoints == old(checkpoints)[id := Checkpoint(id, now, GetSession(sessionId, now), |albums|)]
    {
      checkpoints := checkpoints[checkpointId := Checkpoint(checkpointId, now, GetSession(sessionId, now), |albums|)];
      id := checkpointId;
    }

    /** `log_error`: the ledger gains exactly one entry, then the session's
        error count is set to the ledger length. If the session has no
        statistics object the original raises after the ledger was written. */
    method LogError(path: string, errorType: string, message: string, sessionId: string, now: string)
      returns (ok: bool)
      requires DigestOk(digest)
      modifies this`errors, this`session
      ensures errors == old(errors) + [ErrorEntry(now, AlbumId(digest, path), path, errorType, message)]
      ensures var s := old(GetSession(sessionId, now));
              ok <==> "statistics" in s && s["statistics"].Object?
      ensures ok ==> var s := old(GetSession(sessionId, now));
              session == Some(s["statistics" := Json.Object(s["statistics"].fields["errors" := Json.Int(|errors|)])]
                               ["last_checkpoint" := Json.Str(now)])
      ensures !ok ==> session == old(session)
    {
      errors := errors + [ErrorEntry(now, AlbumId(digest, path), path, errorType, message)];
      var s := GetSession(sessionId, now);
      if "statistics" !in s || !s["statistics"].Object? {
        return false;
      }
      SaveSession(s["statistics" := Json.Object(s["statistics"].fields["errors" := Json.Int(|errors|)])], now);
      ok := true;
    }

    /** `get_errors`. */
    function GetErrors(): (r: seq<ErrorEntry>)
      reads this
      ensures r == errors
    {
      errors
    }

    /** `clear_errors`: deletes the ledger file. */
    method ClearErrors()
      modifies this`errors
      ensures errors == []
    {
      errors := [];
    }
  }
}
