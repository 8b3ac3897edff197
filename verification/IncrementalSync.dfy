/** A client that pages through all payments once, and later asks only for what is newer. */
module IncrementalSync {
  import opened Domain
  import opened CoreTables
  import opened Pagination
  import opened LiveTraversal

  // ---------- Which transactions move a key ----------

  /** A transaction later than every row moves the key of a payment it changes exactly if it is no refund. */
  lemma KeyMovesIff(c: Core, tx: Tx, p: Id)
    requires Execute(c, tx).Ok? && LaterThanAll(c.payments, tx.now)
    requires p in c.payments && p in Execute(c, tx).core.payments && Execute(c, tx).core.payments[p] != c.payments[p]
    ensures KeyOf(Execute(c, tx).core.payments, p) != KeyOf(c.payments, p) <==> !tx.command.CreateRefund?
  {
  }

  function Payments(start: Core, history: seq<Tx>, k: nat): Table
    requires k <= |history|
  {
    Run(start, history[..k]).payments
  }

  /** Transaction k changes the payment. */
  predicate ChangedAt(start: Core, history: seq<Tx>, k: nat, p: Id)
    requires k < |history|
  {
    var was, now := Payments(start, history, k), Payments(start, history, k + 1);
    p in was && p in now && was[p] != now[p]
  }

  /** Every change of the payment between two points of the history is a refund. */
  predicate OnlyRefunds(start: Core, history: seq<Tx>, a: nat, b: nat, p: Id)
    requires b <= |history|
  {
    forall k :: a <= k < b && ChangedAt(start, history, k, p) ==> history[k].command.CreateRefund?
  }

  /** One transaction: a later time, or the same time and a refund or nothing. */
  lemma {:induction false} TimeStep(start: Core, history: seq<Tx>, from: Time, k: nat, p: Id)
    requires NotAfter(start, from) && Increasing(from, history) && k < |history| && p in Payments(start, history, k)
    ensures p in Payments(start, history, k + 1)
    ensures var was, now := Payments(start, history, k), Payments(start, history, k + 1);
      now[p].updatedAt == if ChangedAt(start, history, k, p) && !history[k].command.CreateRefund? then history[k].now
                          else was[p].updatedAt
  {
    var c, tx := Run(start, history[..k]), history[k];
    assert history[..k + 1][..k] == history[..k];
    OlderThanNext(start, history, from, k, k);
    if Execute(c, tx).Ok? {
      CommitMovesKey(c, tx, p);
      if Execute(c, tx).core.payments[p] != c.payments[p] { KeyMovesIff(c, tx, p); }
    }
  }

  /** A payment keeps its time over a stretch of history exactly if only refunds changed it. */
  lemma {:induction false} TimeStaysIff(start: Core, history: seq<Tx>, from: Time, a: nat, b: nat, p: Id)
    requires NotAfter(start, from) && Increasing(from, history) && a <= b <= |history| && p in Payments(start, history, a)
    ensures p in Payments(start, history, b)
    ensures Payments(start, history, b)[p].updatedAt == Payments(start, history, a)[p].updatedAt
       <==> OnlyRefunds(start, history, a, b, p)
  {
    if a < b {
      TimeStaysIff(start, history, from, a, b - 1, p);
      TimeStep(start, history, from, b - 1, p);
      OlderThanNext(start, history, from, a, b - 1);
      OneMoreChange(start, history, a, b, p);
    }
  }

  lemma OneMoreChange(start: Core, history: seq<Tx>, a: nat, b: nat, p: Id)
    requires a < b <= |history|
    ensures OnlyRefunds(start, history, a, b, p)
       <==> OnlyRefunds(start, history, a, b - 1, p)
            && (ChangedAt(start, history, b - 1, p) ==> history[b - 1].command.CreateRefund?)
  {
  }

  // ---------- Where a traversal ends ----------

  /** The key of the last row that a traversal returned. */
  function LastKey(pages: seq<Page>): Option<Key>
    requires pages != []
  {
    var last := pages[|pages| - 1];
    if last.data != [] then
      var row := last.data[|last.data| - 1];
      Some(Key(row.payment.updatedAt, row.id))
    else CursorAt(pages, |pages| - 1)
  }

  /** The key is that of a row of the table. */
  predicate IsKeyIn(t: Table, key: Key) { key.id in t && key == KeyOf(t, key.id) }

  predicate AtMost(a: Key, b: Key) { !Less(b, a) }

  lemma {:induction false} PageRow(t: Table, f: Filter, cursor: Option<Key>, limit: nat, p: Page, j: nat)
    requires IsPage(t, f, cursor, limit, p) && j < |p.data|
    ensures var ids := Sorted(t, Remaining(t, f, cursor));
      && j < |ids| && p.data[j].id == ids[j] && ids[j] in t && p.data[j].payment == t[ids[j]] && Beyond(cursor, KeyOf(t, ids[j]))
      && (p.next.Some? ==> |p.data| == limit && p.next.value == KeyOf(t, ids[limit - 1]))
  {
    var ids := Sorted(t, Remaining(t, f, cursor));
    assert ids[j] in Remaining(t, f, cursor);
  }

  lemma {:induction false} SortedOrder(t: Table, f: Filter, cursor: Option<Key>, ids: seq<Id>, i: nat, j: nat)
    requires ids == Sorted(t, Remaining(t, f, cursor)) && i <= j < |ids| && ids[i] in t && ids[j] in t
    ensures AtMost(KeyOf(t, ids[i]), KeyOf(t, ids[j]))
  {
  }

  /** The rows of a page are beyond its cursor and at most its last row; they are rows of its table. */
  lemma {:induction false} PageRows(t: Table, f: Filter, cursor: Option<Key>, limit: nat, p: Page, j: nat)
    requires IsPage(t, f, cursor, limit, p) && j < |p.data|
    ensures var last := p.data[|p.data| - 1];
      && p.data[j].id in t && p.data[j].payment == t[p.data[j].id]
      && Beyond(cursor, KeyOf(t, p.data[j].id))
      && last.id in t && last.payment == t[last.id] && AtMost(KeyOf(t, p.data[j].id), KeyOf(t, last.id))
      && (p.next.Some? ==> p.next.value == KeyOf(t, last.id))
  {
    PageRow(t, f, cursor, limit, p, j);
    PageRow(t, f, cursor, limit, p, |p.data| - 1);
    SortedOrder(t, f, cursor, Sorted(t, Remaining(t, f, cursor)), j, |p.data| - 1);
  }

  /** A page that has more has rows, and a cursor that is the key of its last row. */
  lemma {:induction false} PageCursor(t: Table, f: Filter, cursor: Option<Key>, limit: nat, p: Page)
    requires IsPage(t, f, cursor, limit, p) && p.hasMore && 0 < limit
    ensures p.data != [] && p.next.Some? && IsKeyIn(t, p.next.value) && Beyond(cursor, p.next.value)
  {
    PageRows(t, f, cursor, limit, p, |p.data| - 1);
  }

  /** The cursor of a later fetch: the key of a row of the table before it, beyond the cursor before it. */
  lemma {:induction false} CursorFacts(tables: seq<Table>, pages: seq<Page>, f: Filter, limit: nat, n: nat)
    requires Session(tables, pages, f, limit) && 0 < limit && 0 < n < |pages|
    ensures CursorAt(pages, n).Some? && IsKeyIn(tables[n - 1], CursorAt(pages, n).value)
    ensures Beyond(CursorAt(pages, n - 1), CursorAt(pages, n).value)
  {
    assert FetchAt(tables, pages, f, limit, n - 1);
    PageCursor(tables[n - 1], f, CursorAt(pages, n - 1), limit, pages[n - 1]);
  }

  lemma {:induction false} RowBeforeNext(tables: seq<Table>, pages: seq<Page>, f: Filter, limit: nat, i: nat, j: nat)
    requires Session(tables, pages, f, limit) && 0 < limit && i < |pages| && j < |pages[i].data|
    ensures pages[i].data[j].id in tables[i]
    ensures pages[i].next.Some? ==> AtMost(KeyOf(tables[i], pages[i].data[j].id), pages[i].next.value)
  {
    assert FetchAt(tables, pages, f, limit, i);
    PageRows(tables[i], f, CursorAt(pages, i), limit, pages[i], j);
  }

  lemma AtMostThenLess(a: Key, b: Key, c: Key)
    requires AtMost(a, b) && (b == c || Less(b, c))
    ensures AtMost(a, c)
  {
  }

  /** Later cursors are beyond every row returned so far. */
  lemma {:induction false} CursorBeyond(tables: seq<Table>, pages: seq<Page>, f: Filter, limit: nat, i: nat, j: nat, n: nat)
    requires Session(tables, pages, f, limit) && 0 < limit && i < n < |pages| && j < |pages[i].data|
    ensures pages[i].data[j].id in tables[i] && CursorAt(pages, n).Some?
    ensures AtMost(KeyOf(tables[i], pages[i].data[j].id), CursorAt(pages, n).value)
  {
    RowBeforeNext(tables, pages, f, limit, i, j);
    CursorFacts(tables, pages, f, limit, n);
    if n > i + 1 {
      CursorBeyond(tables, pages, f, limit, i, j, n - 1);
      AtMostThenLess(KeyOf(tables[i], pages[i].data[j].id), CursorAt(pages, n - 1).value, CursorAt(pages, n).value);
    }
  }

  /** The last row of the last page, if it has one, is beyond the page's cursor and the page's other rows. */
  lemma {:induction false} LastRow(tables: seq<Table>, pages: seq<Page>, f: Filter, limit: nat, j: nat)
    requires Session(tables, pages, f, limit) && j < |pages[|pages| - 1].data|
    ensures var n := |pages| - 1;
      && LastKey(pages).Some? && IsKeyIn(tables[n], LastKey(pages).value)
      && Beyond(CursorAt(pages, n), LastKey(pages).value)
      && pages[n].data[j].id in tables[n] && AtMost(KeyOf(tables[n], pages[n].data[j].id), LastKey(pages).value)
  {
    var n := |pages| - 1;
    assert FetchAt(tables, pages, f, limit, n);
    PageRows(tables[n], f, CursorAt(pages, n), limit, pages[n], j);
    PageRows(tables[n], f, CursorAt(pages, n), limit, pages[n], |pages[n].data| - 1);
  }

  /** The last key is beyond every row returned, and is the key of a row that was seen. */
  lemma {:induction false} LastKeyBeyond(tables: seq<Table>, pages: seq<Page>, f: Filter, limit: nat, i: nat, j: nat)
    returns (seen: nat)
    requires Session(tables, pages, f, limit) && 0 < limit && i < |pages| && j < |pages[i].data|
    ensures pages[i].data[j].id in tables[i] && LastKey(pages).Some?
    ensures AtMost(KeyOf(tables[i], pages[i].data[j].id), LastKey(pages).value)
    ensures seen < |tables| && IsKeyIn(tables[seen], LastKey(pages).value)
  {
    var n := |pages| - 1;
    if i < n {
      CursorBeyond(tables, pages, f, limit, i, j, n);
      CursorFacts(tables, pages, f, limit, n);
    }
    if pages[n].data == [] {
      seen := n - 1;
    } else {
      seen := n;
      LastRow(tables, pages, f, limit, if i == n then j else 0);
      if i < n { AtMostThenLess(KeyOf(tables[i], pages[i].data[j].id), CursorAt(pages, n).value, LastKey(pages).value); }
    }
  }

  // ---------- A payment that was returned for the last time ----------

  predicate LastOnPage(pages: seq<Page>, p: Id, i: nat) {
    i < |pages| && OnPage(pages[i], p) && forall n :: i < n < |pages| ==> !OnPage(pages[n], p)
  }

  /** While the traversal goes on, it stays where it was seen, or it is still to come. */
  lemma {:induction false} SameOrAhead(tables: seq<Table>, pages: seq<Page>, f: Filter, limit: nat, p: Id, i: nat, n: nat)
    requires Session(tables, pages, f, limit) && 0 < limit && i < n < |pages|
    requires AllMove(tables) && AlwaysMatches(tables, f, p) && LastOnPage(pages, p, i)
    ensures tables[n][p].updatedAt == tables[i][p].updatedAt || p in Remaining(tables[n], f, CursorAt(pages, n))
  {
    assert FetchAt(tables, pages, f, limit, n - 1) && MovesAt(tables, n - 1);
    CursorFacts(tables, pages, f, limit, n);
    MovedIsAhead(tables[n - 1], tables[n], f, CursorAt(pages, n).value, p);
    if n > i + 1 {
      SameOrAhead(tables, pages, f, limit, p, i, n - 1);
      if p in Remaining(tables[n - 1], f, CursorAt(pages, n - 1)) {
        StillRemaining(tables[n - 1], tables[n], f, CursorAt(pages, n - 1), limit, p, pages[n - 1]);
      }
    }
  }

  lemma MovedIsAhead(before: Table, after: Table, f: Filter, cursor: Key, p: Id)
    requires Moves(before, after) && p in before && p in after && Matches(f, after[p]) && IsKeyIn(before, cursor)
    ensures after[p].updatedAt == before[p].updatedAt || p in Remaining(after, f, Some(cursor))
  {
  }

  /** So at the end of the traversal it has the time with which it was returned. */
  lemma {:induction false} SameAtEnd(tables: seq<Table>, pages: seq<Page>, f: Filter, limit: nat, p: Id, i: nat)
    requires Session(tables, pages, f, limit) && 0 < limit
    requires AllMove(tables) && AlwaysMatches(tables, f, p) && LastOnPage(pages, p, i)
    ensures tables[|tables| - 1][p].updatedAt == tables[i][p].updatedAt
  {
    var n := |tables| - 1;
    if i < n {
      SameOrAhead(tables, pages, f, limit, p, i, n);
      assert FetchAt(tables, pages, f, limit, n);
      if p in Remaining(tables[n], f, CursorAt(pages, n)) {
        FetchedOrAhead(tables[n], f, CursorAt(pages, n), limit, p, pages[n]);
      }
    }
  }

  // ---------- The client ----------

  /** The two ways to go on: from the last cursor, or with `updated_since`. */
  function Resumed(t: Table, f: Filter, key: Key, limit: nat, since: bool): seq<Row>
    requires 0 < limit
  {
    if since then Traverse(t, f.(updatedSince := Some(key.time)), None, limit) else Traverse(t, f, Some(key), limit)
  }

  predicate InRows(rows: seq<Row>, p: Id) { exists j :: 0 <= j < |rows| && rows[j].id == p }

  /** Going on returns a matching payment exactly if it is beyond where the client stopped. */
  lemma {:induction false} ResumedIff(t: Table, f: Filter, key: Key, limit: nat, since: bool, p: Id)
    requires 0 < limit && p in t && Matches(f, t[p])
    requires f.updatedSince.Some? ==> f.updatedSince.value <= key.time
    ensures InRows(Resumed(t, f, key, limit, since), p)
       <==> if since then key.time < t[p].updatedAt else Less(key, KeyOf(t, p))
  {
    var g, cursor := if since then f.(updatedSince := Some(key.time)) else f, if since then None else Some(key);
    TraversalIsExact(t, g, cursor, limit);
    var ids := Sorted(t, Remaining(t, g, cursor));
    assert p in ids <==> p in Remaining(t, g, cursor);
    RowIn(t, ids, p);
  }

  lemma RowIn(t: Table, ids: seq<Id>, p: Id)
    requires forall i :: 0 <= i < |ids| ==> ids[i] in t
    ensures InRows(RowsOf(t, ids), p) <==> p in ids
  {
    if p in ids {
      var j :| 0 <= j < |ids| && ids[j] == p;
      assert RowsOf(t, ids)[j].id == p;
    }
  }

  /** The client got this payment for the last time from `was`; going on at `now` did not renew it, and it differs. */
  predicate Stale(was: Table, now: Table, resumed: seq<Row>, p: Id)
    requires p in was && p in now
  {
    !InRows(resumed, p) && was[p] != now[p]
  }

  /** A key seen at one cut is before every time that comes later than the last cut. */
  lemma {:induction false} SeenIsBefore(start: Core, history: seq<Tx>, from: Time, cuts: seq<nat>, seen: nat, key: Key, time: Time)
    requires NotAfter(start, from) && Increasing(from, history) && Cuts(history, cuts) && seen < |cuts|
    requires IsKeyIn(Payments(start, history, cuts[seen]), key)
    requires LaterThanAll(Payments(start, history, cuts[|cuts| - 1]), time)
    ensures key.time < time
  {
    HistoryMoves(start, history, from, cuts[seen], cuts[|cuts| - 1], key.id);
  }

  ghost predicate CutsThen(history: seq<Tx>, cuts: seq<nat>, b: nat) {
    Cuts(history, cuts) && b <= |history| && forall i :: 0 <= i < |cuts| ==> cuts[i] <= b
  }

  /** Where the payment stands relative to the client's last key, at a later cut b. */
  lemma {:induction false} AheadIff(start: Core, history: seq<Tx>, from: Time, cuts: seq<nat>, pages: seq<Page>, f: Filter,
                                    limit: nat, p: Id, i: nat, b: nat)
    requires NotAfter(start, from) && Increasing(from, history) && CutsThen(history, cuts, b) && 0 < limit
    requires Session(Seen(start, history, cuts), pages, f, limit) && LastOnPage(pages, p, i)
    requires AlwaysMatches(Seen(start, history, cuts), f, p)
    ensures LastKey(pages).Some? && i < |cuts| && cuts[i] <= b <= |history|
    ensures p in Payments(start, history, cuts[i]) && p in Payments(start, history, b)
    ensures var key, now := LastKey(pages).value, Payments(start, history, b);
      if OnlyRefunds(start, history, cuts[i], b, p) then
        AtMost(KeyOf(now, p), key) && now[p].updatedAt <= key.time
      else key.time < now[p].updatedAt
  {
    var tables, n := Seen(start, history, cuts), |cuts| - 1;
    SeenMoves(start, history, from, cuts);
    var j :| 0 <= j < |pages[i].data| && pages[i].data[j].id == p;
    var seen := LastKeyBeyond(tables, pages, f, limit, i, j);
    SameAtEnd(tables, pages, f, limit, p, i);
    TimeStaysIff(start, history, from, cuts[i], b, p);
    if !OnlyRefunds(start, history, cuts[i], b, p) {
      MovedIsLater(start, history, from, cuts, seen, LastKey(pages).value, b, p);
    }
  }

  /** A payment that moved after the last cut is beyond every key seen before. */
  lemma {:induction false} MovedIsLater(start: Core, history: seq<Tx>, from: Time, cuts: seq<nat>, seen: nat, key: Key, b: nat, p: Id)
    requires NotAfter(start, from) && Increasing(from, history) && CutsThen(history, cuts, b) && seen < |cuts|
    requires IsKeyIn(Payments(start, history, cuts[seen]), key) && p in Payments(start, history, cuts[|cuts| - 1])
    requires p in Payments(start, history, b)
    requires Payments(start, history, b)[p].updatedAt != Payments(start, history, cuts[|cuts| - 1])[p].updatedAt
    ensures key.time < Payments(start, history, b)[p].updatedAt
  {
    HistoryMoves(start, history, from, cuts[|cuts| - 1], b, p);
    SeenIsBefore(start, history, from, cuts, seen, key, Payments(start, history, b)[p].updatedAt);
  }

  /** A client pages through a merchant's payments while transactions go on, and later, at cut b, asks for what
      is newer than the last row it got. A payment that matches all the time is then stale at the client exactly
      if it changed since it was returned last, and each of its changes was a refund. */
  lemma {:induction false} StaleIff(profile: Profile, eventId: Id, now: Time, history: seq<Tx>, cuts: seq<nat>,
                                    pages: seq<Page>, f: Filter, limit: nat, p: Id, i: nat, b: nat, since: bool)
    requires Increasing(now, history) && CutsThen(history, cuts, b) && 0 < limit
    requires var start := Genesis(profile, eventId, now);
      && Session(Seen(start, history, cuts), pages, f, limit) && LastOnPage(pages, p, i)
      && AlwaysMatches(Seen(start, history, cuts) + [Payments(start, history, b)], f, p)
    ensures LastKey(pages).Some? && i < |cuts| && cuts[i] <= |history|
    ensures var start := Genesis(profile, eventId, now);
      var was, later := Payments(start, history, cuts[i]), Payments(start, history, b);
      && p in was && p in later
      && Stale(was, later, Resumed(later, f, LastKey(pages).value, limit, since), p)
           == (was[p] != later[p] && OnlyRefunds(start, history, cuts[i], b, p))
  {
    var start := Genesis(profile, eventId, now);
    MatchesShort(Seen(start, history, cuts), Payments(start, history, b), f, p);
    AheadIff(start, history, now, cuts, pages, f, limit, p, i, b);
    var key := LastKey(pages).value;
    FilterBefore(start, history, now, cuts, pages, f, limit, p, i);
    ResumedIff(Payments(start, history, b), f, key, limit, since, p);
  }

  lemma MatchesShort(tables: seq<Table>, last: Table, f: Filter, p: Id)
    requires AlwaysMatches(tables + [last], f, p)
    ensures AlwaysMatches(tables, f, p) && p in last && Matches(f, last[p])
  {
    var all := tables + [last];
    assert all[|tables|] == last;
    assert forall i :: 0 <= i < |tables| ==> all[i] == tables[i];
  }

  /** The client's own `updated_since` lies before the last key. */
  lemma {:induction false} FilterBefore(start: Core, history: seq<Tx>, from: Time, cuts: seq<nat>, pages: seq<Page>, f: Filter,
                                        limit: nat, p: Id, i: nat)
    requires (forall n :: 0 <= n < |cuts| ==> cuts[n] <= |history|) && Session(Seen(start, history, cuts), pages, f, limit)
    requires 0 < limit && LastOnPage(pages, p, i) && AlwaysMatches(Seen(start, history, cuts), f, p)
    ensures LastKey(pages).Some?
    ensures f.updatedSince.Some? ==> f.updatedSince.value <= LastKey(pages).value.time
  {
    var tables := Seen(start, history, cuts);
    var j :| 0 <= j < |pages[i].data| && pages[i].data[j].id == p;
    var seen := LastKeyBeyond(tables, pages, f, limit, i, j);
    assert Matches(f, tables[i][p]);
  }
}
