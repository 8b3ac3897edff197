/** What the pages of a payments list hold, told by the query parameters one by one. */
module PageLaws {
  import opened Domain
  import opened Pagination

  /** The row is one that the parameters ask for; a missing or empty one asks for nothing. */
  predicate Wanted(f: Filter, id: Id, r: Payment) {
    && (f.status == None || f.status == Some(r.status))
    && (f.via == None || f.via == Some("") || f.via == Some(r.via))
    && (f.createdGte.Some? ==> f.createdGte.value <= r.createdAt)
    && (f.createdLte.Some? ==> r.createdAt <= f.createdLte.value)
    && (f.updatedSince.Some? ==> f.updatedSince.value < r.updatedAt)
  }

  /** The row comes after the cursor: it was updated later, or at the same time and has a larger id. */
  predicate Later(cursor: Option<Key>, id: Id, r: Payment) {
    cursor.Some? ==>
      cursor.value.time < r.updatedAt || (cursor.value.time == r.updatedAt && cursor.value.id < id)
  }

  predicate InTurn(a: Row, b: Row) {
    a.payment.updatedAt < b.payment.updatedAt || (a.payment.updatedAt == b.payment.updatedAt && a.id < b.id)
  }

  function AllWanted(t: Table, f: Filter, cursor: Option<Key>): set<Id> {
    set id | id in t && Wanted(f, id, t[id]) && Later(cursor, id, t[id])
  }

  lemma RemainingIsWanted(t: Table, f: Filter, cursor: Option<Key>)
    ensures Remaining(t, f, cursor) == AllWanted(t, f, cursor)
  {
    forall id | id in t ensures id in Remaining(t, f, cursor) <==> id in AllWanted(t, f, cursor) {
      assert Matches(f, t[id]) <==> Wanted(f, id, t[id]);
    }
  }

  /** Row by row: where a page's rows come from, and in which order. */
  ghost predicate RowAt(t: Table, f: Filter, cursor: Option<Key>, data: seq<Row>, i: nat)
    requires i < |data|
  {
    var id := data[i].id;
    && id in t && data[i].payment == t[id] && Wanted(f, id, t[id]) && Later(cursor, id, t[id])
    && forall j :: i < j < |data| ==> InTurn(data[i], data[j])
  }

  predicate Shown(data: seq<Row>, id: Id) { exists j :: 0 <= j < |data| && data[j].id == id }

  lemma {:induction false} SortedRows(t: Table, f: Filter, cursor: Option<Key>, ids: seq<Id>, n: nat)
    requires ids == Sorted(t, Remaining(t, f, cursor)) && n <= |ids|
    requires forall i :: 0 <= i < |ids| ==> ids[i] in t
    ensures forall i :: 0 <= i < n ==> RowAt(t, f, cursor, RowsOf(t, ids[..n]), i)
  {
    RemainingIsWanted(t, f, cursor);
    var data := RowsOf(t, ids[..n]);
    forall i | 0 <= i < n ensures RowAt(t, f, cursor, data, i) {
      assert ids[i] in AllWanted(t, f, cursor);
      assert data[i] == Row(ids[i], t[ids[i]]);
      forall j | i < j < n ensures InTurn(data[i], data[j]) { assert Less(KeyOf(t, ids[i]), KeyOf(t, ids[j])); }
    }
  }

  /** Every row of a page is a row of the table that the parameters ask for, beyond the cursor; the rows stand
      in ascending order of time and id, and there are at most `limit` of them. */
  lemma {:induction false} PageHoldsWanted(t: Table, f: Filter, cursor: Option<Key>, limit: nat, p: Page)
    requires IsPage(t, f, cursor, limit, p)
    ensures |p.data| <= limit
    ensures forall i :: 0 <= i < |p.data| ==> RowAt(t, f, cursor, p.data, i)
  {
    var ids := Sorted(t, Remaining(t, f, cursor));
    SortedIn(t, Remaining(t, f, cursor), ids);
    SortedRows(t, f, cursor, ids, Min(limit, |ids|));
  }

  /** A wanted row that is not on the page: the page is full, there is more, and the row comes after it. */
  lemma {:induction false} LeftForLater(t: Table, f: Filter, cursor: Option<Key>, limit: nat, p: Page, id: Id)
    requires IsPage(t, f, cursor, limit, p)
    requires id in t && Wanted(f, id, t[id]) && Later(cursor, id, t[id]) && !Shown(p.data, id)
    ensures |p.data| == limit && p.hasMore
    ensures forall i :: 0 <= i < limit ==> InTurn(p.data[i], Row(id, t[id]))
  {
    var ids := Sorted(t, Remaining(t, f, cursor));
    SortedIn(t, Remaining(t, f, cursor), ids);
    RemainingIsWanted(t, f, cursor);
    assert id in ids;
    ShownIff(t, ids[..Min(limit, |ids|)], id);
    var k :| Min(limit, |ids|) <= k < |ids| && ids[k] == id;
    forall i | 0 <= i < limit ensures InTurn(p.data[i], Row(id, t[id])) {
      assert p.data[i] == Row(ids[i], t[ids[i]]);
      assert Less(KeyOf(t, ids[i]), KeyOf(t, ids[k]));
    }
  }

  /** `has_more` is true exactly if some wanted row beyond the cursor is not on the page. */
  lemma {:induction false} HasMoreIff(t: Table, f: Filter, cursor: Option<Key>, limit: nat, p: Page)
    requires IsPage(t, f, cursor, limit, p)
    ensures p.hasMore <==>
      exists id :: id in t && Wanted(f, id, t[id]) && Later(cursor, id, t[id]) && !Shown(p.data, id)
  {
    var ids := Sorted(t, Remaining(t, f, cursor));
    SortedIn(t, Remaining(t, f, cursor), ids);
    RemainingIsWanted(t, f, cursor);
    if p.hasMore {
      var id := ids[limit];
      assert id in AllWanted(t, f, cursor);
      forall j | 0 <= j < |p.data| ensures p.data[j].id != id { assert Less(KeyOf(t, ids[j]), KeyOf(t, ids[limit])); }
    }
    if id :| id in t && Wanted(f, id, t[id]) && Later(cursor, id, t[id]) && !Shown(p.data, id) {
      LeftForLater(t, f, cursor, limit, p, id);
    }
  }

  /** The next cursor is the key of the page's last row, and there is one exactly if there is more. */
  lemma {:induction false} NextIsLastRow(t: Table, f: Filter, cursor: Option<Key>, limit: nat, p: Page)
    requires IsPage(t, f, cursor, limit, p) && 0 < limit
    ensures p.next.Some? <==> p.hasMore
    ensures p.next.Some? ==>
      |p.data| == limit && p.next.value == Key(p.data[limit - 1].payment.updatedAt, p.data[limit - 1].id)
  {
    SortedIn(t, Remaining(t, f, cursor), Sorted(t, Remaining(t, f, cursor)));
  }

  /** A method that is not given and an empty one make no difference; */
  lemma {:induction false} EmptyMethod(t: Table, f: Filter, cursor: Option<Key>, limit: nat, p: Page)
    requires f.via == None
    ensures IsPage(t, f.(via := Some("")), cursor, limit, p) <==> IsPage(t, f, cursor, limit, p)
  {
    SameRemaining(t, f.(via := Some("")), f, cursor);
  }

  lemma SameRemaining(t: Table, f: Filter, g: Filter, cursor: Option<Key>)
    requires forall id, r :: Wanted(f, id, r) <==> Wanted(g, id, r)
    ensures Remaining(t, f, cursor) == Remaining(t, g, cursor)
  {
    RemainingIsWanted(t, f, cursor);
    RemainingIsWanted(t, g, cursor);
  }

  /** any other method selects its own payments. */
  lemma {:induction false} GivenMethod(t: Table, f: Filter, cursor: Option<Key>, via: string)
    requires f.via == None && via != ""
    ensures Remaining(t, f.(via := Some(via)), cursor) == set id | id in Remaining(t, f, cursor) && t[id].via == via
  {
    RemainingIsWanted(t, f, cursor);
    RemainingIsWanted(t, f.(via := Some(via)), cursor);
  }

  lemma {:induction false} ShownIff(t: Table, ids: seq<Id>, id: Id)
    requires forall i :: 0 <= i < |ids| ==> ids[i] in t
    ensures Shown(RowsOf(t, ids), id) <==> id in ids
  {
    var rows := RowsOf(t, ids);
    assert forall i :: 0 <= i < |ids| ==> rows[i].id == ids[i];
    if id in ids {
      var k :| 0 <= k < |ids| && ids[k] == id;
      assert rows[k].id == id;
    }
  }

  /** Following the cursors over a table that does not change: the pages together hold exactly the wanted rows,
      in ascending order and none twice. */
  lemma {:induction false} TraversalHoldsWanted(t: Table, f: Filter, cursor: Option<Key>, limit: nat)
    requires 0 < limit
    ensures var rows := Traverse(t, f, cursor, limit);
      && (forall i :: 0 <= i < |rows| ==> RowAt(t, f, cursor, rows, i))
      && (forall id :: Shown(rows, id) <==> id in t && Wanted(f, id, t[id]) && Later(cursor, id, t[id]))
  {
    var ids := Sorted(t, Remaining(t, f, cursor));
    SortedIn(t, Remaining(t, f, cursor), ids);
    TraversalIsExact(t, f, cursor, limit);
    assert ids[..|ids|] == ids;
    SortedRows(t, f, cursor, ids, |ids|);
    forall id ensures Shown(RowsOf(t, ids), id) == (id in AllWanted(t, f, cursor)) {
      ShownIff(t, ids, id);
      RemainingIsWanted(t, f, cursor);
    }
  }
}
