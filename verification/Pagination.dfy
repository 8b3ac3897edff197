/** Keyset pagination over a payments table ordered by (updated_at, payment_id). */
module Pagination {
  import opened Domain

  type Table = map<Id, Payment>

  datatype Key = Key(time: Time, id: Id)

  datatype Filter = Filter(status: Option<Status>, via: Option<string>, createdGte: Option<Time>,
                           createdLte: Option<Time>, updatedSince: Option<Time>)

  datatype Row = Row(id: Id, payment: Payment)

  datatype Page = Page(data: seq<Row>, next: Option<Key>, hasMore: bool, limit: nat, totalCount: Option<nat>)

  // ---------- The query ----------

  datatype Condition =
    | After(key: Key) | StatusIs(status: Status) | ViaIs(via: string)
    | CreatedFrom(time: Time) | CreatedTo(time: Time) | UpdatedAfter(time: Time)

  predicate Less(a: Key, b: Key) { a.time < b.time || (a.time == b.time && a.id < b.id) }

  function KeyOf(t: Table, id: Id): Key
    requires id in t
  {
    Key(t[id].updatedAt, id)
  }

  predicate Holds(c: Condition, id: Id, r: Payment) {
    match c
    case After(key) => Less(key, Key(r.updatedAt, id))
    case StatusIs(s) => r.status == s
    case ViaIs(v) => r.via == v
    case CreatedFrom(t) => t <= r.createdAt
    case CreatedTo(t) => r.createdAt <= t
    case UpdatedAfter(t) => t < r.updatedAt
  }

  predicate AllHold(conditions: seq<Condition>, id: Id, r: Payment) {
    forall i :: 0 <= i < |conditions| ==> Holds(conditions[i], id, r)
  }

  function Where(t: Table, conditions: seq<Condition>): set<Id> {
    set id | id in t && AllHold(conditions, id, t[id])
  }

  predicate IsFirst(t: Table, ids: set<Id>, first: Id)
    requires ids <= t.Keys
  {
    first in ids && forall id :: id in ids && id != first ==> Less(KeyOf(t, first), KeyOf(t, id))
  }

  lemma {:induction false} FirstExists(t: Table, ids: set<Id>)
    requires ids <= t.Keys && ids != {}
    ensures exists first :: IsFirst(t, ids, first)
  {
    var x :| x in ids;
    var rest := ids - {x};
    if rest == {} {
      forall id | id in ids ensures id == x { assert id != x ==> id in rest; }
      assert IsFirst(t, ids, x);
    } else {
      FirstExists(t, rest);
      var y :| IsFirst(t, rest, y);
      assert IsFirst(t, ids, if Less(KeyOf(t, x), KeyOf(t, y)) then x else y);
    }
  }

  predicate Ascending(t: Table, ids: seq<Id>)
    requires forall i :: 0 <= i < |ids| ==> ids[i] in t
  {
    forall i, j :: 0 <= i < j < |ids| ==> Less(KeyOf(t, ids[i]), KeyOf(t, ids[j]))
  }

  /** ORDER BY updated_at, payment_id. */
  function Sorted(t: Table, ids: set<Id>): (r: seq<Id>)
    requires ids <= t.Keys
    ensures |r| == |ids| && forall id :: id in r <==> id in ids
    ensures Ascending(t, r)
  {
    if ids == {} then []
    else
      FirstExists(t, ids);
      var first :| IsFirst(t, ids, first);
      [first] + Sorted(t, ids - {first})
  }

  function RowsOf(t: Table, ids: seq<Id>): seq<Row>
    requires forall i :: 0 <= i < |ids| ==> ids[i] in t
  {
    seq(|ids|, i requires 0 <= i < |ids| => Row(ids[i], t[ids[i]]))
  }

  function Min(a: nat, b: nat): nat { if a < b then a else b }

  /** SELECT ... WHERE conditions ORDER BY key LIMIT n. */
  function Query(t: Table, conditions: seq<Condition>, n: nat): seq<Row> {
    var ids := Sorted(t, Where(t, conditions));
    RowsOf(t, ids[..Min(n, |ids|)])
  }

  function BuildBulkResponse(rows: seq<Row>, limit: nat, totalCount: Option<nat>): Page {
    var hasMore := |rows| > limit;
    var data := rows[..Min(limit, |rows|)];
    var next := if hasMore && data != [] then Some(Key(data[|data| - 1].payment.updatedAt, data[|data| - 1].id)) else None;
    Page(data, next, hasMore, limit, totalCount)
  }

  // ---------- What a page is ----------

  predicate Given(s: Option<string>) { s.Some? && s.value != "" }

  predicate Matches(f: Filter, r: Payment) {
    && (f.status.Some? ==> r.status == f.status.value)
    && (Given(f.via) ==> r.via == f.via.value)
    && (f.createdGte.Some? ==> f.createdGte.value <= r.createdAt)
    && (f.createdLte.Some? ==> r.createdAt <= f.createdLte.value)
    && (f.updatedSince.Some? ==> f.updatedSince.value < r.updatedAt)
  }

  predicate Beyond(cursor: Option<Key>, k: Key) { cursor.Some? ==> Less(cursor.value, k) }

  /** The rows still to come after a cursor. */
  function Remaining(t: Table, f: Filter, cursor: Option<Key>): set<Id> {
    set id | id in t && Matches(f, t[id]) && Beyond(cursor, KeyOf(t, id))
  }

  /** The first `limit` of them, and where to go on. */
  ghost predicate IsPage(t: Table, f: Filter, cursor: Option<Key>, limit: nat, p: Page) {
    var ids := Sorted(t, Remaining(t, f, cursor));
    && p.data == RowsOf(t, ids[..Min(limit, |ids|)])
    && p.hasMore == (|ids| > limit) && p.limit == limit
    && p.next == if |ids| > limit > 0 then Some(KeyOf(t, ids[limit - 1])) else None
  }

  /** The conditions say what the filter and the cursor say. */
  ghost predicate Means(conditions: seq<Condition>, f: Filter, cursor: Option<Key>) {
    forall id, r :: AllHold(conditions, id, r) <==> Matches(f, r) && Beyond(cursor, Key(r.updatedAt, id))
  }

  predicate TimesMatch(f: Filter, r: Payment) {
    && (f.createdGte.Some? ==> f.createdGte.value <= r.createdAt)
    && (f.createdLte.Some? ==> r.createdAt <= f.createdLte.value)
    && (f.updatedSince.Some? ==> f.updatedSince.value < r.updatedAt)
  }

  method BuildConditions(f: Filter, cursor: Option<Key>) returns (conditions: seq<Condition>)
    ensures Means(conditions, f, cursor)
  {
    conditions := [];
    conditions := Append(conditions, if cursor.Some? then Some(After(cursor.value)) else None);
    conditions := Append(conditions, if f.status.Some? then Some(StatusIs(f.status.value)) else None);
    conditions := Append(conditions, if Given(f.via) then Some(ViaIs(f.via.value)) else None);
    conditions := AppendTimes(conditions, f);
  }

  method AppendTimes(conditions: seq<Condition>, f: Filter) returns (more: seq<Condition>)
    ensures forall id, r :: AllHold(more, id, r) <==> AllHold(conditions, id, r) && TimesMatch(f, r)
  {
    more := Append(conditions, if f.createdGte.Some? then Some(CreatedFrom(f.createdGte.value)) else None);
    more := Append(more, if f.createdLte.Some? then Some(CreatedTo(f.createdLte.value)) else None);
    more := Append(more, if f.updatedSince.Some? then Some(UpdatedAfter(f.updatedSince.value)) else None);
  }

  lemma WhereIsRemaining(t: Table, conditions: seq<Condition>, f: Filter, cursor: Option<Key>)
    requires Means(conditions, f, cursor)
    ensures Where(t, conditions) == Remaining(t, f, cursor)
  {
    forall id | id in t ensures id in Where(t, conditions) <==> id in Remaining(t, f, cursor) {
      assert AllHold(conditions, id, t[id]) <==> Matches(f, t[id]) && Beyond(cursor, Key(t[id].updatedAt, id));
    }
  }

  method GetPayments(t: Table, f: Filter, cursor: Option<Key>, limit: nat, includeCount: bool) returns (p: Page)
    ensures IsPage(t, f, cursor, limit, p)
    ensures p.totalCount == if includeCount then Some(|Remaining(t, f, cursor)|) else None
  {
    var conditions := BuildConditions(f, cursor);
    WhereIsRemaining(t, conditions, f, cursor);
    var rows := Query(t, conditions, limit + 1);
    p := BuildBulkResponse(rows, limit, if includeCount then Some(|Where(t, conditions)|) else None);
    ResponseIsPage(t, Sorted(t, Where(t, conditions)), rows, limit, p);
  }

  /** The extra row tells whether there is more, and is cut off. */
  lemma ResponseIsPage(t: Table, all: seq<Id>, rows: seq<Row>, limit: nat, p: Page)
    requires forall i :: 0 <= i < |all| ==> all[i] in t
    requires rows == RowsOf(t, all[..Min(limit + 1, |all|)]) && p == BuildBulkResponse(rows, limit, p.totalCount)
    ensures p.data == RowsOf(t, all[..Min(limit, |all|)])
    ensures p.hasMore == (|all| > limit) && p.limit == limit
    ensures p.next == if |all| > limit > 0 then Some(KeyOf(t, all[limit - 1])) else None
  {
  }

  method Append(conditions: seq<Condition>, c: Option<Condition>) returns (more: seq<Condition>)
    ensures forall id, r :: AllHold(more, id, r) <==> AllHold(conditions, id, r) && (c.Some? ==> Holds(c.value, id, r))
  {
    more := conditions;
    if c.Some? {
      more := more + [c.value];
      forall id, r ensures AllHold(more, id, r) <==> AllHold(conditions, id, r) && Holds(c.value, id, r) {
        assert more[|conditions|] == c.value;
        assert forall i :: 0 <= i < |conditions| ==> more[i] == conditions[i];
      }
    }
  }

  // ---------- A table that does not change ----------

  function Above(t: Table, ids: set<Id>, key: Key): set<Id>
    requires ids <= t.Keys
  {
    set id | id in ids && Less(key, KeyOf(t, id))
  }

  lemma SortedStep(t: Table, ids: set<Id>) returns (first: Id)
    requires ids <= t.Keys && ids != {}
    ensures IsFirst(t, ids, first) && Sorted(t, ids) == [first] + Sorted(t, ids - {first})
  {
    first := Sorted(t, ids)[0];
  }

  lemma AboveRest(t: Table, ids: set<Id>, first: Id, key: Key)
    requires ids <= t.Keys && IsFirst(t, ids, first) && (key == KeyOf(t, first) || Less(KeyOf(t, first), key))
    ensures Above(t, ids, key) == if key == KeyOf(t, first) then ids - {first} else Above(t, ids - {first}, key)
  {
  }

  /** The rows sorted after the k-th are the rows beyond its key. */
  lemma {:induction false} SortedSplit(t: Table, ids: set<Id>, all: seq<Id>, k: nat, key: Key)
    requires ids <= t.Keys && all == Sorted(t, ids) && 0 < k <= |all| && key == KeyOf(t, all[k - 1])
    ensures all[k..] == Sorted(t, Above(t, ids, key))
  {
    var first := SortedStep(t, ids);
    var rest := ids - {first};
    AboveRest(t, ids, first, key);
    if k > 1 {
      SortedSplit(t, rest, all[1..], k - 1, key);
      assert all[1..][k - 1..] == all[k..];
    }
  }

  lemma RemainingIsAbove(t: Table, f: Filter, cursor: Option<Key>, key: Key)
    requires Beyond(cursor, key)
    ensures Remaining(t, f, Some(key)) == Above(t, Remaining(t, f, cursor), key)
  {
  }

  /** What is left after a page that has more. */
  lemma {:induction false} NextRemaining(t: Table, f: Filter, cursor: Option<Key>, limit: nat, ids: seq<Id>, key: Key)
    requires ids == Sorted(t, Remaining(t, f, cursor)) && 0 < limit < |ids| && key == KeyOf(t, ids[limit - 1])
    ensures Sorted(t, Remaining(t, f, Some(key))) == ids[limit..]
    ensures |Remaining(t, f, Some(key))| < |Remaining(t, f, cursor)|
  {
    var was, left := Remaining(t, f, cursor), Remaining(t, f, Some(key));
    SortedSplit(t, was, ids, limit, key);
    assert ids[limit - 1] in was;
    RemainingIsAbove(t, f, cursor, key);
    assert |Sorted(t, left)| == |left|;
  }

  function PageOf(t: Table, f: Filter, cursor: Option<Key>, limit: nat): (p: Page)
    ensures IsPage(t, f, cursor, limit, p)
  {
    var ids := Sorted(t, Remaining(t, f, cursor));
    Page(RowsOf(t, ids[..Min(limit, |ids|)]),
         if |ids| > limit > 0 then Some(KeyOf(t, ids[limit - 1])) else None, |ids| > limit, limit, None)
  }

  /** Following the cursors until `has_more` is false: this ends for every limit of at least one, */
  function Traverse(t: Table, f: Filter, cursor: Option<Key>, limit: nat): seq<Row>
    requires 0 < limit
    decreases |Remaining(t, f, cursor)|
  {
    var p := PageOf(t, f, cursor, limit);
    if !p.hasMore then p.data
    else
      NextRemaining(t, f, cursor, limit, Sorted(t, Remaining(t, f, cursor)), p.next.value);
      p.data + Traverse(t, f, p.next, limit)
  }

  lemma RowsSplit(t: Table, ids: seq<Id>, k: nat)
    requires k <= |ids| && forall i :: 0 <= i < |ids| ==> ids[i] in t
    ensures RowsOf(t, ids[..k]) + RowsOf(t, ids[k..]) == RowsOf(t, ids)
  {
  }

  lemma {:induction false} SortedIn(t: Table, s: set<Id>, ids: seq<Id>)
    requires s <= t.Keys && ids == Sorted(t, s)
    ensures forall i :: 0 <= i < |ids| ==> ids[i] in t
  {
    forall i | 0 <= i < |ids| ensures ids[i] in t { assert ids[i] in s; }
  }

  lemma {:induction false} TraverseLast(t: Table, f: Filter, cursor: Option<Key>, limit: nat, ids: seq<Id>)
    requires 0 < limit && ids == Sorted(t, Remaining(t, f, cursor)) && |ids| <= limit
    requires forall i :: 0 <= i < |ids| ==> ids[i] in t
    ensures Traverse(t, f, cursor, limit) == RowsOf(t, ids)
  {
    assert ids[..|ids|] == ids;
  }

  lemma {:induction false} TraverseNext(t: Table, f: Filter, cursor: Option<Key>, limit: nat, ids: seq<Id>, key: Key)
    requires 0 < limit && ids == Sorted(t, Remaining(t, f, cursor)) && limit < |ids|
    requires (forall i :: 0 <= i < |ids| ==> ids[i] in t) && key == KeyOf(t, ids[limit - 1])
    ensures Traverse(t, f, cursor, limit) == RowsOf(t, ids[..limit]) + Traverse(t, f, Some(key), limit)
  {
  }

  lemma {:induction false} TraverseIs(t: Table, f: Filter, cursor: Option<Key>, limit: nat, ids: seq<Id>)
    requires 0 < limit && ids == Sorted(t, Remaining(t, f, cursor))
    ensures forall i :: 0 <= i < |ids| ==> ids[i] in t
    ensures Traverse(t, f, cursor, limit) == RowsOf(t, ids)
    decreases |ids|
  {
    SortedIn(t, Remaining(t, f, cursor), ids);
    if |ids| <= limit {
      TraverseLast(t, f, cursor, limit, ids);
    } else {
      var key, rest := KeyOf(t, ids[limit - 1]), ids[limit..];
      TraverseNext(t, f, cursor, limit, ids, key);
      NextRemaining(t, f, cursor, limit, ids, key);
      TraverseIs(t, f, Some(key), limit, rest);
      RowsSplit(t, ids, limit);
    }
  }

  /** and the pages together are the whole filtered table, in key order, without a gap or a repetition. */
  lemma {:induction false} TraversalIsExact(t: Table, f: Filter, cursor: Option<Key>, limit: nat)
    requires 0 < limit
    ensures Traverse(t, f, cursor, limit) == RowsOf(t, Sorted(t, Remaining(t, f, cursor)))
  {
    TraverseIs(t, f, cursor, limit, Sorted(t, Remaining(t, f, cursor)));
  }

  // ---------- A table that changes between fetches ----------

  function CursorAt(pages: seq<Page>, i: nat): Option<Key>
    requires i <= |pages|
  {
    if i == 0 then None else pages[i - 1].next
  }

  ghost predicate FetchAt(tables: seq<Table>, pages: seq<Page>, f: Filter, limit: nat, i: nat)
    requires |pages| == |tables| && i < |pages|
  {
    IsPage(tables[i], f, CursorAt(pages, i), limit, pages[i]) && (pages[i].hasMore <==> i < |pages| - 1)
  }

  /** One traversal: fetch i sees the table `tables[i]`, goes on where the page before ended, and the last
      page is the one with nothing after it. */
  ghost predicate Session(tables: seq<Table>, pages: seq<Page>, f: Filter, limit: nat) {
    |pages| == |tables| && pages != [] && forall i :: 0 <= i < |pages| ==> FetchAt(tables, pages, f, limit, i)
  }

  predicate LaterThanAll(t: Table, time: Time) { forall id :: id in t ==> t[id].updatedAt < time }

  /** From one table to a later one no row disappears, and a row moves only to a time after all that was seen. */
  predicate Moves(before: Table, after: Table) {
    forall id :: id in before ==>
      id in after && (after[id].updatedAt == before[id].updatedAt || LaterThanAll(before, after[id].updatedAt))
  }

  predicate MovesAt(tables: seq<Table>, i: nat)
    requires i + 1 < |tables|
  {
    Moves(tables[i], tables[i + 1])
  }

  predicate AllMove(tables: seq<Table>) { forall i :: 0 <= i < |tables| - 1 ==> MovesAt(tables, i) }

  /** The row is in every table, and matches there. */
  predicate AlwaysMatches(tables: seq<Table>, f: Filter, id: Id) {
    forall i :: 0 <= i < |tables| ==> id in tables[i] && Matches(f, tables[i][id])
  }

  predicate OnPage(p: Page, id: Id) { exists j :: 0 <= j < |p.data| && p.data[j].id == id }

  predicate Returned(pages: seq<Page>, id: Id) { exists i :: 0 <= i < |pages| && OnPage(pages[i], id) }

  /** One fetch returns a row that is still to come, or stays behind it. */
  lemma FetchedOrAhead(t: Table, f: Filter, cursor: Option<Key>, limit: nat, id: Id, p: Page)
    requires 0 < limit && id in Remaining(t, f, cursor) && IsPage(t, f, cursor, limit, p) && !OnPage(p, id)
    ensures p.hasMore && p.next.Some? && p.next.value.id in t && p.next.value == KeyOf(t, p.next.value.id)
    ensures Less(p.next.value, KeyOf(t, id))
  {
    var ids := Sorted(t, Remaining(t, f, cursor));
    var k :| 0 <= k < |ids| && ids[k] == id;
    assert forall j :: 0 <= j < |p.data| ==> p.data[j].id == ids[j];
  }

  /** A key never moves behind a cursor that was taken from an earlier table. */
  lemma StaysAhead(before: Table, after: Table, seen: Id, id: Id)
    requires Moves(before, after) && seen in before && id in before && Less(KeyOf(before, seen), KeyOf(before, id))
    ensures id in after && Less(KeyOf(before, seen), KeyOf(after, id))
  {
  }

  lemma StillRemaining(before: Table, after: Table, f: Filter, cursor: Option<Key>, limit: nat, id: Id, p: Page)
    requires 0 < limit && id in Remaining(before, f, cursor) && IsPage(before, f, cursor, limit, p) && !OnPage(p, id)
    requires Moves(before, after) && Matches(f, after[id])
    ensures id in Remaining(after, f, p.next)
  {
    FetchedOrAhead(before, f, cursor, limit, id, p);
    StaysAhead(before, after, p.next.value.id, id);
  }

  lemma {:induction false} AheadNext(tables: seq<Table>, pages: seq<Page>, f: Filter, limit: nat, id: Id, n: nat)
    requires Session(tables, pages, f, limit) && 0 < limit && n + 1 < |tables|
    requires AllMove(tables) && AlwaysMatches(tables, f, id) && !Returned(pages, id)
    requires id in Remaining(tables[n], f, CursorAt(pages, n))
    ensures id in Remaining(tables[n + 1], f, CursorAt(pages, n + 1))
  {
    assert FetchAt(tables, pages, f, limit, n) && MovesAt(tables, n);
    StillRemaining(tables[n], tables[n + 1], f, CursorAt(pages, n), limit, id, pages[n]);
  }

  lemma {:induction false} ReturnedOrAhead(tables: seq<Table>, pages: seq<Page>, f: Filter, limit: nat, id: Id, n: nat)
    requires Session(tables, pages, f, limit) && 0 < limit && n < |tables|
    requires AllMove(tables) && AlwaysMatches(tables, f, id) && !Returned(pages, id)
    ensures id in Remaining(tables[n], f, CursorAt(pages, n))
  {
    if n > 0 {
      ReturnedOrAhead(tables, pages, f, limit, id, n - 1);
      AheadNext(tables, pages, f, limit, id, n - 1);
    }
  }

  /** A traversal that ends returns every row that was there from the start and kept matching, although rows
      are inserted and updated between its fetches. */
  lemma NoRowSkipped(tables: seq<Table>, pages: seq<Page>, f: Filter, limit: nat, id: Id)
    requires Session(tables, pages, f, limit) && 0 < limit && AllMove(tables) && AlwaysMatches(tables, f, id)
    ensures Returned(pages, id)
  {
    if !Returned(pages, id) {
      var n := |pages| - 1;
      ReturnedOrAhead(tables, pages, f, limit, id, n);
      assert FetchAt(tables, pages, f, limit, n);
      FetchedOrAhead(tables[n], f, CursorAt(pages, n), limit, id, pages[n]);
    }
  }
}
