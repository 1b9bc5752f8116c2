/** The album work queue: a dictionary from album id to an entry holding a
    status, a priority and a metadata map, kept in dictionary (insertion)
    order. The JSON file it is saved to is not modelled; every mutating
    method below is followed by a save in the original. */
module Queue {
  import opened Wrappers
  import Json

  datatype AlbumStatus =
    | Discovered | Scanned | Validated | NeedsReview | Approved
    | Rejected | Fixed | Verified | Failed | Skipped
  {
    /** The string stored in the queue file (`status.value`). */
    function Name(): string {
      match this
      case Discovered => "discovered"
      case Scanned => "scanned"
      case Validated => "validated"
      case NeedsReview => "needs_review"
      case Approved => "approved"
      case Rejected => "rejected"
      case Fixed => "fixed"
      case Verified => "verified"
      case Failed => "failed"
      case Skipped => "skipped"
    }
  }

  const AllStatuses: seq<AlbumStatus> :=
    [Discovered, Scanned, Validated, NeedsReview, Approved, Rejected, Fixed, Verified, Failed, Skipped]

  /** `AlbumStatus(name)`: the status whose stored name is `name`. */
  function ParseStatus(name: string): (r: Option<AlbumStatus>)
    ensures r.Some? ==> r.value.Name() == name
    ensures r.None? ==> forall s: AlbumStatus :: s.Name() != name
  {
    if name == "discovered" then Some(Discovered)
    else if name == "scanned" then Some(Scanned)
    else if name == "validated" then Some(Validated)
    else if name == "needs_review" then Some(NeedsReview)
    else if name == "approved" then Some(Approved)
    else if name == "rejected" then Some(Rejected)
    else if name == "fixed" then Some(Fixed)
    else if name == "verified" then Some(Verified)
    else if name == "failed" then Some(Failed)
    else if name == "skipped" then Some(Skipped)
    else None
  }

  lemma StatusNamesDistinct(a: AlbumStatus, b: AlbumStatus)
    ensures a.Name() == b.Name() <==> a == b
  {
  }

  datatype Priority = Low | Normal | High | Critical {
    function Value(): int {
      match this
      case Low => 0
      case Normal => 1
      case High => 2
      case Critical => 3
    }
  }

  /** `Priority(v)`: `None` stands for the `ValueError` raised on any other value. */
  function PriorityOf(v: int): (r: Option<Priority>)
    ensures r.Some? <==> 0 <= v <= 3
    ensures r.Some? ==> r.value.Value() == v
  {
    if v == 0 then Some(Low) else if v == 1 then Some(Normal)
    else if v == 2 then Some(High) else if v == 3 then Some(Critical) else None
  }

  /** One queue entry. `status` is the stored string, which a hand-edited
      queue file may set to a name outside `AlbumStatus`. */
  datatype Entry = Entry(
    path: string, status: string, priority: int,
    addedAt: string, updatedAt: string, metadata: Json.Obj)

  /** `{"id": id, **entry}`. */
  datatype Item = Item(id: string, entry: Entry)

  // ------------------------------------------- stable sort by priority, descending

  predicate Descending(s: seq<Item>) {
    forall i, j :: 0 <= i < j < |s| ==> s[i].entry.priority >= s[j].entry.priority
  }

  /** The items of `s` whose priority is `p`, in their order in `s`. */
  function WithPriority(s: seq<Item>, p: int): (r: seq<Item>)
    ensures forall x :: x in r ==> x in s && x.entry.priority == p
  {
    if s == [] then []
    else (if s[0].entry.priority == p then [s[0]] else []) + WithPriority(s[1..], p)
  }

  lemma ConsDescending(a: Item, t: seq<Item>)
    requires Descending(t)
    requires forall y :: y in t ==> a.entry.priority >= y.entry.priority
    ensures Descending([a] + t)
  {
    forall i, j | 0 <= i < j < |[a] + t|
      ensures ([a] + t)[i].entry.priority >= ([a] + t)[j].entry.priority
    {
      assert ([a] + t)[j] == t[j - 1];
      assert t[j - 1] in t;
      if i > 0 { assert ([a] + t)[i] == t[i - 1]; }
    }
  }

  /** `x` placed before the first element whose priority does not exceed its own. */
  function InsertByPriority(x: Item, s: seq<Item>): (r: seq<Item>)
    requires Descending(s)
    ensures Descending(r)
    ensures multiset(r) == multiset(s) + multiset{x}
  {
    if s == [] || s[0].entry.priority <= x.entry.priority then
      ConsDescending(x, s);
      [x] + s
    else
      var t := InsertByPriority(x, s[1..]);
      HeadBoundsInsert(s, x, t);
      ConsDescending(s[0], t);
      assert multiset([s[0]] + t) == multiset(s) + multiset{x} by {
        assert s == [s[0]] + s[1..];
      }
      [s[0]] + t
  }

  /** What is inserted behind the head of `s` is bounded by the head's priority. */
  lemma HeadBoundsInsert(s: seq<Item>, x: Item, t: seq<Item>)
    requires Descending(s) && s != [] && s[0].entry.priority > x.entry.priority
    requires multiset(t) == multiset(s[1..]) + multiset{x}
    ensures forall y :: y in t ==> s[0].entry.priority >= y.entry.priority
  {
    forall y | y in t ensures s[0].entry.priority >= y.entry.priority {
      assert y in multiset(t);
      if y != x {
        assert y in multiset(s[1..]);
        var k :| 0 <= k < |s[1..]| && s[1..][k] == y;
        assert s[k + 1] == y;
      }
    }
  }

  lemma WithPriorityCons(a: Item, t: seq<Item>, p: int)
    ensures WithPriority([a] + t, p) == (if a.entry.priority == p then [a] else []) + WithPriority(t, p)
  {
    assert ([a] + t)[1..] == t;
  }

  lemma TailDescending(s: seq<Item>)
    requires Descending(s) && s != []
    ensures Descending(s[1..])
  {
    forall i, j | 0 <= i < j < |s[1..]| ensures s[1..][i].entry.priority >= s[1..][j].entry.priority {
      assert s[1..][j] == s[j + 1] && s[1..][i] == s[i + 1];
    }
  }

  /** Inserting `x` adds it at the front of its own priority class and
      leaves every other class as it was. */
  lemma {:induction false} InsertByPriorityClasses(x: Item, s: seq<Item>, p: int)
    requires Descending(s)
    ensures WithPriority(InsertByPriority(x, s), p) == (if p == x.entry.priority then [x] else []) + WithPriority(s, p)
  {
    if s == [] || s[0].entry.priority <= x.entry.priority {
      WithPriorityCons(x, s, p);
    } else {
      TailDescending(s);
      InsertByPriorityClasses(x, s[1..], p);
      InsertByPriorityPast(s[0], x, InsertByPriority(x, s[1..]), s[1..], p);
      assert InsertByPriority(x, s) == [s[0]] + InsertByPriority(x, s[1..]);
      assert [s[0]] + s[1..] == s;
    }
  }

  /** One step of `InsertByPriorityClasses` when `x` goes past the item `a`. */
  lemma {:induction false} InsertByPriorityPast(a: Item, x: Item, t: seq<Item>, u: seq<Item>, p: int)
    requires a.entry.priority > x.entry.priority
    requires WithPriority(t, p) == (if p == x.entry.priority then [x] else []) + WithPriority(u, p)
    ensures WithPriority([a] + t, p) == (if p == x.entry.priority then [x] else []) + WithPriority([a] + u, p)
  {
    WithPriorityCons(a, t, p);
    WithPriorityCons(a, u, p);
  }

  /** `sorted(items, key=priority, reverse=True)`: Python's sort is stable,
      so items of equal priority keep their relative order. */
  function SortByPriority(s: seq<Item>): (r: seq<Item>)
    ensures Descending(r)
    ensures multiset(r) == multiset(s)
  {
    if s == [] then []
    else
      var t := SortByPriority(s[1..]);
      assert s == [s[0]] + s[1..];
      InsertByPriority(s[0], t)
  }

  /** Stability: each priority class keeps its order from the input. */
  lemma {:induction false} SortByPriorityStable(s: seq<Item>, p: int)
    ensures WithPriority(SortByPriority(s), p) == WithPriority(s, p)
  {
    if s != [] {
      SortByPriorityStable(s[1..], p);
      InsertByPriorityClasses(s[0], SortByPriority(s[1..]), p);
    }
  }

  /** The queue. `order` is the dictionary's iteration order. */
  class QueueManager {
    var entries: map<string, Entry>
    var order: seq<string>

    ghost predicate Valid()
      reads this
    {
      (forall id :: id in entries <==> id in order)
      && (forall i, j :: 0 <= i < j < |order| ==> order[i] != order[j])
    }

    constructor ()
      ensures Valid() && entries == map[] && order == []
    {
      entries := map[];
      order := [];
    }

    /** The items with status `name`, in dictionary order. */
    function ItemsWithStatus(ids: seq<string>, name: string): (r: seq<Item>)
      reads this
      requires forall id :: id in ids ==> id in entries
      ensures forall x :: x in r ==> x.id in ids && x.entry == entries[x.id] && x.entry.status == name
      ensures |r| <= |ids|
    {
      if ids == [] then []
      else
        (if entries[ids[0]].status == name then [Item(ids[0], entries[ids[0]])] else [])
        + ItemsWithStatus(ids[1..], name)
    }

    lemma {:induction false} ItemsWithStatusComplete(ids: seq<string>, name: string, id: string)
      requires forall k :: k in ids ==> k in entries
      requires id in ids && entries[id].status == name
      ensures Item(id, entries[id]) in ItemsWithStatus(ids, name)
    {
      if ids[0] != id {
        ItemsWithStatusComplete(ids[1..], name, id);
      }
    }

    /** `get_by_status`: exactly the entries whose status is `status`, by
        priority descending, ties in dictionary order. */
    function GetByStatus(status: AlbumStatus): (r: seq<Item>)
      reads this
      requires Valid()
      ensures forall x :: x in r ==> x.id in entries && entries[x.id] == x.entry && x.entry.status == status.Name()
      ensures forall id :: id in entries && entries[id].status == status.Name() ==> Item(id, entries[id]) in r
      ensures Descending(r)
      ensures forall p :: WithPriority(r, p) == WithPriority(ItemsWithStatus(order, status.Name()), p)
    {
      var items := ItemsWithStatus(order, status.Name());
      var r := SortByPriority(items);
      assert forall p :: WithPriority(r, p) == WithPriority(items, p) by {
        forall p ensures WithPriority(r, p) == WithPriority(items, p) {
          SortByPriorityStable(items, p);
        }
      }
      assert forall x :: x in r ==> x in items by {
        forall x | x in r ensures x in items {
          assert x in multiset(r);
        }
      }
      assert forall id :: id in entries && entries[id].status == status.Name() ==> Item(id, entries[id]) in r by {
        forall id | id in entries && entries[id].status == status.Name()
          ensures Item(id, entries[id]) in r
        {
          ItemsWithStatusComplete(order, status.Name(), id);
          assert Item(id, entries[id]) in multiset(items);
        }
      }
      r
    }

    /** `get_review_queue`. */
    function GetReviewQueue(): (r: seq<Item>)
      reads this
      requires Valid()
      ensures r == GetByStatus(NeedsReview)
      ensures forall x :: x in r ==> x.entry.status == NeedsReview.Name()
    {
      GetByStatus(NeedsReview)
    }

    /** `get_ready_to_fix`: the VALIDATED list, then the APPROVED list. */
    function GetReadyToFix(): (r: seq<Item>)
      reads this
      requires Valid()
      ensures r == GetByStatus(Validated) + GetByStatus(Approved)
      ensures forall x :: x in r ==> x.id in entries && entries[x.id] == x.entry
      ensures forall x :: x in r ==> IsReady(x.entry.status)
      ensures forall id :: id in entries && IsReady(entries[id].status) ==> Item(id, entries[id]) in r
      ensures forall i, j :: 0 <= i < j < |r| && r[i].entry.status == Approved.Name()
                ==> r[j].entry.status == Approved.Name()
    {
      var v := GetByStatus(Validated);
      var a := GetByStatus(Approved);
      ReadyOrder(v, a);
      v + a
    }

    /** `get`. */
    function Get(id: string): (r: Option<Item>)
      reads this
      ensures r.Some? <==> id in entries
      ensures r.Some? ==> r.value.id == id && r.value.entry == entries[id]
    {
      if id in entries then Some(Item(id, entries[id])) else None
    }

    /** `add`: inserts or overwrites; a new id goes last in dictionary order. */
    method Add(id: string, path: string, status: AlbumStatus, priority: Priority,
               metadata: Option<Json.Obj>, now: string)
      requires Valid()
      modifies this
      ensures Valid()
      ensures entries == old(entries)[id := Entry(path, status.Name(), priority.Value(), now, now,
                                                  if metadata.Some? then metadata.value else map[])]
      ensures order == if id in old(entries) then old(order) else old(order) + [id]
    {
      if id !in entries {
        order := order + [id];
      }
      entries := entries[id := Entry(path, status.Name(), priority.Value(), now, now,
                                     if metadata.Some? then metadata.value else map[])];
    }

    /** `update_status`: false and no change for an unknown id; otherwise the
        status is set and the patch merged into the metadata, patch keys winning. */
    method UpdateStatus(id: string, status: AlbumStatus, patch: Json.Obj, now: string) returns (ok: bool)
      requires Valid()
      modifies this
      ensures Valid() && order == old(order)
      ensures ok <==> id in old(entries)
      ensures !ok ==> entries == old(entries)
      ensures ok ==> entries == old(entries)[id := old(entries)[id].(
                status := status.Name(), updatedAt := now,
                metadata := old(entries)[id].metadata + patch)]
    {
      if id !in entries {
        return false;
      }
      var e := entries[id];
      entries := entries[id := e.(status := status.Name(), updatedAt := now, metadata := e.metadata + patch)];
      ok := true;
    }

    /** `update_priority`. */
    method UpdatePriority(id: string, priority: Priority, now: string) returns (ok: bool)
      requires Valid()
      modifies this
      ensures Valid() && order == old(order)
      ensures ok <==> id in old(entries)
      ensures !ok ==> entries == old(entries)
      ensures ok ==> entries == old(entries)[id := old(entries)[id].(priority := priority.Value(), updatedAt := now)]
    {
      if id !in entries {
        return false;
      }
      entries := entries[id := entries[id].(priority := priority.Value(), updatedAt := now)];
      ok := true;
    }

    /** `remove`. */
    method Remove(id: string) returns (ok: bool)
      requires Valid()
      modifies this
      ensures Valid()
      ensures ok <==> id in old(entries)
      ensures entries == old(entries) - {id}
      ensures order == Without(old(order), id)
    {
      ok := id in entries;
      WithoutSpec(order, id);
      if ok {
        entries := entries - {id};
        order := Without(order, id);
      }
      else {
        assert Without(order, id) == order by { WithoutAbsent(order, id); }
      }
    }

    /** `set_priority_by_issues`. */
    method SetPriorityByIssues(id: string, issueCount: int, now: string)
      requires Valid()
      modifies this
      ensures Valid() && order == old(order)
      ensures id !in old(entries) ==> entries == old(entries)
      ensures id in old(entries) ==> entries == old(entries)[id := old(entries)[id].(
                priority := PriorityForIssues(issueCount).Value(), updatedAt := now)]
    {
      var _ := UpdatePriority(id, PriorityForIssues(issueCount), now);
    }

    /** `bulk_add`: adds every album that has both an id and a path (priority
        NORMAL when absent) and counts them. An out-of-range priority raises
        `ValueError` in the original; here it stops the loop with `BadPriority`,
        the albums before it having been added. The new state and the result
        are those of `BulkFold`, whose lemmas below say what they hold. */
    method BulkAdd(albums: seq<AlbumInput>, now: string) returns (r: BulkResult)
      requires Valid()
      modifies this
      ensures Valid()
      ensures var b := BulkFold(old(entries), old(order), albums, now, 0);
        entries == b.entries && order == b.order && r == b.result
    {
      var count := 0;
      var i := 0;
      while i < |albums|
        invariant Valid()
        invariant 0 <= i <= |albums|
        invariant BulkFold(old(entries), old(order), albums, now, 0) == BulkFold(entries, order, albums[i..], now, count)
      {
        var a := albums[i];
        assert albums[i..][0] == a && albums[i..][1..] == albums[i + 1..];
        if Addable(a) {
          var p := PriorityOf(a.priority.GetOr(Normal.Value()));
          if p.None? {
            return BadPriority(a.priority.GetOr(Normal.Value()));
          }
          Add(a.id, a.path, Discovered, p.value, None, now);
          count := count + 1;
        }
        i := i + 1;
      }
      r := Added(count);
    }

    /** `clear`. */
    method Clear()
      modifies this
      ensures Valid() && entries == map[] && order == []
    {
      entries := map[];
      order := [];
    }

    /** `count_by_status`: a zero for every status, then one count per entry
        whose stored status is a known name. */
    method CountByStatus() returns (counts: map<AlbumStatus, nat>)
      requires Valid()
      ensures forall s: AlbumStatus :: s in counts && counts[s] == Count(order, s)
    {
      counts := ZeroCounts();
      var i := 0;
      assert order[..0] == [];
      while i < |order|
        invariant 0 <= i <= |order|
        invariant forall s: AlbumStatus :: s in counts && counts[s] == Count(order[..i], s)
      {
        var name := entries[order[i]].status;
        assert order[..i + 1] == order[..i] + [order[i]];
        CountAppend(order[..i], order[i]);
        var st := ParseStatus(name);
        if st.Some? {
          forall s: AlbumStatus ensures s.Name() == name <==> s == st.value {
            StatusNamesDistinct(s, st.value);
          }
          counts := counts[st.value := counts[st.value] + 1];
        }
        i := i + 1;
      }
      assert order[..i] == order;
    }

    /** How many of `ids` have stored status `s`. */
    function Count(ids: seq<string>, s: AlbumStatus): nat
      reads this
      requires forall id :: id in ids ==> id in entries
    {
      if ids == [] then 0
      else (if entries[ids[0]].status == s.Name() then 1 else 0) + Count(ids[1..], s)
    }

    lemma {:induction false} CountAppend(ids: seq<string>, id: string)
      requires forall k :: k in ids + [id] ==> k in entries
      ensures forall s: AlbumStatus ::
        Count(ids + [id], s) == Count(ids, s) + (if entries[id].status == s.Name() then 1 else 0)
    {
      if ids != [] {
        assert (ids + [id])[1..] == ids[1..] + [id];
        CountAppend(ids[1..], id);
      }
    }

    /** How many of `ids` have a stored status that is a known name. */
    function CountKnown(ids: seq<string>): nat
      reads this
      requires forall id :: id in ids ==> id in entries
    {
      if ids == [] then 0
      else (if ParseStatus(entries[ids[0]].status).Some? then 1 else 0) + CountKnown(ids[1..])
    }

    /** The ten counts add up to the number of entries with a known status. */
    lemma {:induction false} CountsPartition(ids: seq<string>)
      requires forall id :: id in ids ==> id in entries
      ensures SumOfCounts(ids) == CountKnown(ids) <= |ids|
    {
      if ids != [] {
        CountsPartition(ids[1..]);
        var name := entries[ids[0]].status;
        assert SumOfCounts(ids) == SumOfCounts(ids[1..]) + Indicators(name);
        OneKnownStatus(name);
      }
    }

    function SumOfCounts(ids: seq<string>): nat
      reads this
      requires forall id :: id in ids ==> id in entries
    {
      Count(ids, Discovered) + Count(ids, Scanned) + Count(ids, Validated)
      + Count(ids, NeedsReview) + Count(ids, Approved) + Count(ids, Rejected)
      + Count(ids, Fixed) + Count(ids, Verified) + Count(ids, Failed) + Count(ids, Skipped)
    }

    /** The ids whose stored status is `s`, whatever their order. */
    ghost function WithStatus(s: AlbumStatus): set<string>
      reads this
    {
      set id | id in entries && entries[id].status == s.Name()
    }

    /** Counting along a list of distinct ids counts a set. */
    lemma {:induction false} CountIsSetSize(ids: seq<string>, s: AlbumStatus)
      requires forall id :: id in ids ==> id in entries
      requires forall i, j :: 0 <= i < j < |ids| ==> ids[i] != ids[j]
      ensures Count(ids, s) == |set id | id in ids && entries[id].status == s.Name()|
    {
      StatusSetOfNone(ids, entries, s.Name());
      if ids != [] {
        CountIsSetSize(ids[1..], s);
        HeadNotInTail(ids);
        ConsStatusSet(ids[0], ids[1..], entries, s.Name());
        assert [ids[0]] + ids[1..] == ids;
      }
    }

    /** Each count is the number of entries stored under that status. */
    lemma CountsAreSizes()
      requires Valid()
      ensures forall s: AlbumStatus :: Count(order, s) == |WithStatus(s)|
    {
      forall s: AlbumStatus ensures Count(order, s) == |WithStatus(s)| {
        CountIsSetSize(order, s);
        assert (set id | id in order && entries[id].status == s.Name()) == WithStatus(s);
      }
    }

    /** `get_statistics`: each figure counts the entries stored under its
        statuses: scan waits on DISCOVERED, validation on SCANNED, review
        on NEEDS_REVIEW, a fix on VALIDATED or APPROVED; VERIFIED and FIXED
        are completed, REJECTED and SKIPPED skipped. */
    function GetStatistics(): (st: Statistics)
      reads this
      requires Valid()
      ensures st.total == |entries|
      ensures st.pendingScan == |WithStatus(Discovered)| && st.pendingValidation == |WithStatus(Scanned)|
      ensures st.pendingReview == |WithStatus(NeedsReview)|
      ensures st.pendingFix == |WithStatus(Validated)| + |WithStatus(Approved)|
      ensures st.completed == |WithStatus(Verified)| + |WithStatus(Fixed)|
      ensures st.failed == |WithStatus(Failed)|
      ensures st.skipped == |WithStatus(Rejected)| + |WithStatus(Skipped)|
      ensures st.pendingScan + st.pendingValidation + st.pendingReview + st.pendingFix
        + st.completed + st.failed + st.skipped == CountKnown(order)
      ensures CountKnown(order) <= st.total
    {
      CountsPartition(order);
      CountsAreSizes();
      assert |entries| == |order| by { DistinctCard(order, entries); }
      Statistics(
        |entries|,
        Count(order, Discovered), Count(order, Scanned), Count(order, NeedsReview),
        Count(order, Validated) + Count(order, Approved),
        Count(order, Verified) + Count(order, Fixed),
        Count(order, Failed),
        Count(order, Rejected) + Count(order, Skipped))
    }
  }

  function ZeroCounts(): (m: map<AlbumStatus, nat>)
    ensures forall s: AlbumStatus :: s in m && m[s] == 0
  {
    EveryStatusListed();
    map s | s in AllStatuses :: 0
  }

  lemma EveryStatusListed()
    ensures forall s: AlbumStatus :: s in AllStatuses
  {
    forall s: AlbumStatus ensures s in AllStatuses {
      match s
      case Discovered => case Scanned => case Validated => case NeedsReview => case Approved =>
      case Rejected => case Fixed => case Verified => case Failed => case Skipped =>
    }
  }

  function Ind(b: bool): nat { if b then 1 else 0 }

  /** How many statuses have stored name `name` (at most one). */
  function Indicators(name: string): nat {
    Ind(name == Discovered.Name()) + Ind(name == Scanned.Name()) + Ind(name == Validated.Name())
    + Ind(name == NeedsReview.Name()) + Ind(name == Approved.Name()) + Ind(name == Rejected.Name())
    + Ind(name == Fixed.Name()) + Ind(name == Verified.Name()) + Ind(name == Failed.Name())
    + Ind(name == Skipped.Name())
  }

  lemma OneKnownStatus(name: string)
    ensures Indicators(name) == Ind(ParseStatus(name).Some?)
  {
  }

  predicate IsReady(status: string) { status == Validated.Name() || status == Approved.Name() }

  lemma ReadyOrder(v: seq<Item>, a: seq<Item>)
    requires forall x :: x in v ==> x.entry.status == Validated.Name()
    requires forall x :: x in a ==> x.entry.status == Approved.Name()
    ensures forall i, j :: 0 <= i < j < |v + a| && (v + a)[i].entry.status == Approved.Name()
                ==> (v + a)[j].entry.status == Approved.Name()
  {
    forall i, j | 0 <= i < j < |v + a| && (v + a)[i].entry.status == Approved.Name()
      ensures (v + a)[j].entry.status == Approved.Name()
    {
      assert (v + a)[j] == a[j - |v|];
      assert a[j - |v|] in a;
    }
  }

  /** The derived figures of `get_statistics` (the raw counts are `CountByStatus`). */
  datatype Statistics = Statistics(
    total: nat, pendingScan: nat, pendingValidation: nat, pendingReview: nat,
    pendingFix: nat, completed: nat, failed: nat, skipped: nat)

  /** `set_priority_by_issues`: HIGH from five issues, NORMAL from two, else LOW. */
  function PriorityForIssues(issueCount: int): (p: Priority)
    ensures p == High <==> issueCount >= 5
    ensures p == Normal <==> 2 <= issueCount < 5
    ensures p == Low <==> issueCount < 2
  {
    if issueCount >= 5 then High else if issueCount >= 2 then Normal else Low
  }

  /** One element of `bulk_add`'s argument: a missing or empty id or path is `""`. */
  datatype AlbumInput = AlbumInput(id: string, path: string, priority: Option<int>)

  datatype BulkResult = Added(count: nat) | BadPriority(badPriority: int)

  predicate Addable(a: AlbumInput) { a.id != [] && a.path != [] }

  function CountAddable(albums: seq<AlbumInput>): (n: nat)
    ensures n <= |albums|
  {
    if albums == [] then 0 else (if Addable(albums[0]) then 1 else 0) + CountAddable(albums[1..])
  }

  /** The entry `add(id, path)` stores for an album of the batch. */
  function NewEntry(a: AlbumInput, now: string): (e: Entry)
    ensures e.path == a.path && e.status == "discovered" && e.metadata == map[]
    ensures e.priority == (if a.priority.Some? then a.priority.value else 1)
    ensures e.addedAt == now && e.updatedAt == now
  {
    Entry(a.path, Discovered.Name(), a.priority.GetOr(Normal.Value()), now, now, map[])
  }

  /** An album that is added but whose priority `Priority(...)` refuses. */
  predicate BadAt(a: AlbumInput) {
    Addable(a) && PriorityOf(a.priority.GetOr(Normal.Value())).None?
  }

  /** The queue's entries and order after a batch, and what `bulk_add` returns. */
  datatype Bulk = Bulk(entries: map<string, Entry>, order: seq<string>, result: BulkResult)

  /** `bulk_add` from the state (`es`, `ord`) with `c` albums already
      counted: album by album, the addable ones are added as `add` does, and
      the first one with a bad priority stops the batch. */
  ghost function BulkFold(es: map<string, Entry>, ord: seq<string>, albums: seq<AlbumInput>,
                          now: string, c: nat): Bulk
    decreases |albums|
  {
    if albums == [] then Bulk(es, ord, Added(c))
    else
      var a := albums[0];
      if !Addable(a) then BulkFold(es, ord, albums[1..], now, c)
      else if BadAt(a) then Bulk(es, ord, BadPriority(a.priority.GetOr(Normal.Value())))
      else BulkFold(es[a.id := NewEntry(a, now)], if a.id in es then ord else ord + [a.id], albums[1..], now, c + 1)
  }

  /** A completed batch reports the number of albums with an id and a path. */
  lemma {:induction false} BulkCount(es: map<string, Entry>, ord: seq<string>, albums: seq<AlbumInput>, now: string, c: nat)
    ensures BulkFold(es, ord, albums, now, c).result.Added? ==>
      BulkFold(es, ord, albums, now, c).result.count == c + CountAddable(albums)
    decreases |albums|
  {
    if albums != [] {
      var a := albums[0];
      if !Addable(a) {
        BulkCount(es, ord, albums[1..], now, c);
      } else if !BadAt(a) {
        BulkCount(es[a.id := NewEntry(a, now)], if a.id in es then ord else ord + [a.id], albums[1..], now, c + 1);
      }
    }
  }

  /** The batch stops at the first album with a bad priority, reporting that
      priority, after adding exactly the albums before it. */
  lemma {:induction false} BulkStopsAt(es: map<string, Entry>, ord: seq<string>, albums: seq<AlbumInput>, now: string, c: nat, k: nat)
    requires k < |albums| && BadAt(albums[k]) && forall j :: 0 <= j < k ==> !BadAt(albums[j])
    ensures var b := BulkFold(es, ord, albums[..k], now, c);
      BulkFold(es, ord, albums, now, c) == Bulk(b.entries, b.order, BadPriority(albums[k].priority.GetOr(Normal.Value())))
    decreases k
  {
    if k > 0 {
      var a := albums[0];
      assert albums[..k][0] == a && albums[..k][1..] == albums[1..][..k - 1];
      assert !BadAt(a);
      if !Addable(a) {
        BulkStopsAt(es, ord, albums[1..], now, c, k - 1);
      } else {
        BulkStopsAt(es[a.id := NewEntry(a, now)], if a.id in es then ord else ord + [a.id], albums[1..], now, c + 1, k - 1);
      }
    }
  }

  /** With no bad priority the batch completes. */
  lemma {:induction false} BulkCompletes(es: map<string, Entry>, ord: seq<string>, albums: seq<AlbumInput>, now: string, c: nat)
    requires forall j :: 0 <= j < |albums| ==> !BadAt(albums[j])
    ensures BulkFold(es, ord, albums, now, c).result.Added?
    decreases |albums|
  {
    if albums != [] {
      var a := albums[0];
      assert !BadAt(albums[0]);
      if !Addable(a) {
        BulkCompletes(es, ord, albums[1..], now, c);
      } else {
        BulkCompletes(es[a.id := NewEntry(a, now)], if a.id in es then ord else ord + [a.id], albums[1..], now, c + 1);
      }
    }
  }

  /** The ids of the albums the batch adds. */
  function AddedIds(albums: seq<AlbumInput>): (ids: set<string>)
    ensures forall id :: id in ids ==> id != []
  {
    if albums == [] then {}
    else (if Addable(albums[0]) then {albums[0].id} else {}) + AddedIds(albums[1..])
  }

  /** An id is among the batch's ids exactly when some album with an id and
      a path carries it. */
  lemma {:induction false} AddedIdsAt(albums: seq<AlbumInput>, id: string)
    ensures id in AddedIds(albums) <==> exists j :: 0 <= j < |albums| && Addable(albums[j]) && albums[j].id == id
    decreases |albums|
  {
    if albums != [] {
      var rest := albums[1..];
      AddedIdsAt(rest, id);
      if id in AddedIds(rest) {
        var j :| 0 <= j < |rest| && Addable(rest[j]) && rest[j].id == id;
        assert albums[j + 1] == rest[j];
      }
      if exists j :: 0 <= j < |albums| && Addable(albums[j]) && albums[j].id == id {
        var j :| 0 <= j < |albums| && Addable(albums[j]) && albums[j].id == id;
        if j > 0 {
          assert rest[j - 1] == albums[j];
        }
      }
    }
  }

  /** A completed batch adds exactly the batch's ids to the keys. */
  lemma {:induction false} BulkKeys(es: map<string, Entry>, ord: seq<string>, albums: seq<AlbumInput>, now: string, c: nat)
    requires forall j :: 0 <= j < |albums| ==> !BadAt(albums[j])
    ensures BulkFold(es, ord, albums, now, c).entries.Keys == es.Keys + AddedIds(albums)
    decreases |albums|
  {
    if albums != [] {
      var a := albums[0];
      assert !BadAt(albums[0]);
      assert forall j :: 0 <= j < |albums[1..]| ==> albums[1..][j] == albums[j + 1];
      if !Addable(a) {
        BulkKeys(es, ord, albums[1..], now, c);
      } else {
        BulkKeys(es[a.id := NewEntry(a, now)], if a.id in es then ord else ord + [a.id], albums[1..], now, c + 1);
      }
    }
  }

  /** An id the batch does not add keeps its entry. */
  lemma {:induction false} BulkKeeps(es: map<string, Entry>, ord: seq<string>, albums: seq<AlbumInput>, now: string, c: nat, id: string)
    requires id in es && id !in AddedIds(albums)
    ensures var b := BulkFold(es, ord, albums, now, c);
      id in b.entries && b.entries[id] == es[id]
    decreases |albums|
  {
    if albums != [] {
      var a := albums[0];
      if !Addable(a) {
        BulkKeeps(es, ord, albums[1..], now, c, id);
      } else if !BadAt(a) {
        BulkKeeps(es[a.id := NewEntry(a, now)], if a.id in es then ord else ord + [a.id], albums[1..], now, c + 1, id);
      }
    }
  }

  /** After a completed batch an added id holds the entry of the last album
      that added it. */
  lemma {:induction false} BulkLastWins(es: map<string, Entry>, ord: seq<string>, albums: seq<AlbumInput>, now: string, c: nat, k: nat)
    requires forall j :: 0 <= j < |albums| ==> !BadAt(albums[j])
    requires k < |albums| && Addable(albums[k])
    requires forall j :: k < j < |albums| && Addable(albums[j]) ==> albums[j].id != albums[k].id
    ensures var b := BulkFold(es, ord, albums, now, c);
      albums[k].id in b.entries && b.entries[albums[k].id] == NewEntry(albums[k], now)
    decreases k
  {
    var a := albums[0];
    var rest := albums[1..];
    assert !BadAt(albums[0]);
    assert forall j :: 0 <= j < |rest| ==> rest[j] == albums[j + 1];
    if k == 0 {
      AddedIdsAt(rest, a.id);
      BulkKeeps(es[a.id := NewEntry(a, now)], if a.id in es then ord else ord + [a.id], rest, now, c + 1, a.id);
    } else if !Addable(a) {
      BulkLastWins(es, ord, rest, now, c, k - 1);
    } else {
      BulkLastWins(es[a.id := NewEntry(a, now)], if a.id in es then ord else ord + [a.id], rest, now, c + 1, k - 1);
    }
  }

  /** The order keeps the ids it had, and the ids after them are batch ids
      that were not yet queued. */
  lemma {:induction false} BulkOrder(es: map<string, Entry>, ord: seq<string>, albums: seq<AlbumInput>, now: string, c: nat)
    ensures var b := BulkFold(es, ord, albums, now, c);
      |ord| <= |b.order| && b.order[..|ord|] == ord
    ensures var b := BulkFold(es, ord, albums, now, c);
      forall i :: |ord| <= i < |b.order| ==> (b.order[i] !in es && b.order[i] in AddedIds(albums))
    decreases |albums|
  {
    if albums != [] {
      var a := albums[0];
      if !Addable(a) {
        BulkOrder(es, ord, albums[1..], now, c);
      } else if !BadAt(a) {
        var ord' := if a.id in es then ord else ord + [a.id];
        BulkOrder(es[a.id := NewEntry(a, now)], ord', albums[1..], now, c + 1);
        var b := BulkFold(es[a.id := NewEntry(a, now)], ord', albums[1..], now, c + 1);
        assert b.order[..|ord|] == ord'[..|ord|];
      }
    }
  }

  /** `ids` with `x` removed. */
  function Without(ids: seq<string>, x: string): seq<string> {
    if ids == [] then [] else (if ids[0] == x then [] else [ids[0]]) + Without(ids[1..], x)
  }

  lemma {:induction false} WithoutSpec(ids: seq<string>, x: string)
    requires forall i, j :: 0 <= i < j < |ids| ==> ids[i] != ids[j]
    ensures forall y :: y in Without(ids, x) <==> y in ids && y != x
    ensures forall i, j :: 0 <= i < j < |Without(ids, x)| ==> Without(ids, x)[i] != Without(ids, x)[j]
  {
    if ids != [] {
      WithoutSpec(ids[1..], x);
      var rest := Without(ids[1..], x);
      if ids[0] != x {
        var w := [ids[0]] + rest;
        assert Without(ids, x) == w;
        forall i, j | 0 <= i < j < |w| ensures w[i] != w[j] {
          if i == 0 {
            assert w[j] in rest;
            assert w[j] in ids[1..];
          } else {
            assert w[i] == rest[i - 1] && w[j] == rest[j - 1];
          }
        }
      }
    }
  }

  lemma {:induction false} WithoutAbsent(ids: seq<string>, x: string)
    requires x !in ids
    ensures Without(ids, x) == ids
  {
    if ids != [] {
      WithoutAbsent(ids[1..], x);
      assert ids == [ids[0]] + ids[1..];
    }
  }

  /** No ids, no ids of any status. */
  lemma StatusSetOfNone(ids: seq<string>, m: map<string, Entry>, name: string)
    requires forall id :: id in ids ==> id in m
    ensures ids == [] ==> |set id | id in ids && m[id].status == name| == 0
  {
    var all := set id | id in ids && m[id].status == name;
    if ids == [] {
      assert forall x :: x !in all;
      assert all == {};
    }
  }

  /** In a list of distinct ids the first does not come back. */
  lemma HeadNotInTail(ids: seq<string>)
    requires ids != []
    requires forall i, j :: 0 <= i < j < |ids| ==> ids[i] != ids[j]
    ensures ids[0] !in ids[1..]
  {
    forall k | 0 <= k < |ids[1..]| ensures ids[1..][k] != ids[0] {
      assert ids[1..][k] == ids[k + 1];
    }
  }

  /** Putting a new id in front adds it to the ids of a status exactly
      when it has that status. */
  lemma ConsStatusSet(head: string, tail: seq<string>, m: map<string, Entry>, name: string)
    requires head !in tail
    requires forall id :: id in [head] + tail ==> id in m
    ensures |set id | id in [head] + tail && m[id].status == name|
            == (if m[head].status == name then 1 else 0) + |set id | id in tail && m[id].status == name|
  {
    var rest := set id | id in tail && m[id].status == name;
    var all := set id | id in [head] + tail && m[id].status == name;
    if m[head].status == name {
      assert all == rest + {head};
    } else {
      assert all == rest;
    }
  }

  lemma {:induction false} DistinctCard<V>(ids: seq<string>, m: map<string, V>)
    requires forall id :: id in m <==> id in ids
    requires forall i, j :: 0 <= i < j < |ids| ==> ids[i] != ids[j]
    ensures |m| == |ids|
  {
    if ids == [] {
      assert m.Keys == {};
    } else {
      var last := ids[|ids| - 1];
      var front := ids[..|ids| - 1];
      var m' := m - {last};
      DropLastKeys(ids, m, last, front);
      DistinctCard(front, m');
      assert m.Keys == m'.Keys + {last};
      assert |m.Keys| == |m'.Keys| + 1;
    }
  }

  /** Without the last id, the map without that key matches the rest of the list. */
  lemma DropLastKeys<V>(ids: seq<string>, m: map<string, V>, last: string, front: seq<string>)
    requires ids != [] && last == ids[|ids| - 1] && front == ids[..|ids| - 1]
    requires forall id :: id in m <==> id in ids
    requires forall i, j :: 0 <= i < j < |ids| ==> ids[i] != ids[j]
    ensures forall id :: id in m - {last} <==> id in front
    ensures forall i, j :: 0 <= i < j < |front| ==> front[i] != front[j]
  {
    forall id ensures id in m - {last} <==> id in front {
      if id in front {
        var k :| 0 <= k < |front| && front[k] == id;
        assert ids[k] == id;
      }
      if id in ids && id != last {
        var k :| 0 <= k < |ids| && ids[k] == id;
        assert front[k] == id;
      }
    }
  }
}
