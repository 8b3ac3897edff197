/** The outbox worker: copies pending rows to the topic, then marks them published. */
module Outbox {
  import opened Domain
  import opened CoreInvariants
  import opened Staging

  const BATCH_LIMIT: nat := 50

  datatype Row = Row(merchant: Id, record: Record, published: bool)

  /** A message of the topic; its key decides its partition, so order is kept per key. */
  datatype Keyed = Keyed(key: Id, record: Record)

  function TimeAt(rows: seq<Row>, i: nat): Time
    requires i < |rows|
  {
    rows[i].record.createdAt
  }

  /** What the database may answer: the oldest pending rows, ties in any order. */
  ghost predicate IsBatch(rows: seq<Row>, batch: seq<nat>) {
    && |batch| <= BATCH_LIMIT
    && (forall i :: 0 <= i < |batch| ==> batch[i] < |rows| && !rows[batch[i]].published)
    && (forall i, j :: 0 <= i < j < |batch| ==>
          batch[i] != batch[j] && TimeAt(rows, batch[i]) <= TimeAt(rows, batch[j]))
    && (forall k :: 0 <= k < |rows| && !rows[k].published && k !in batch ==>
          |batch| == BATCH_LIMIT && forall i :: 0 <= i < |batch| ==> TimeAt(rows, batch[i]) <= TimeAt(rows, k))
  }

  /** The messages the producer takes for the given rows; `accepted` says which sends did not raise. */
  function Sent(rows: seq<Row>, batch: seq<nat>, accepted: seq<bool>): seq<Keyed>
    requires |accepted| == |batch|
    requires forall i :: 0 <= i < |batch| ==> batch[i] < |rows|
  {
    if batch == [] then []
    else
      var n := |batch| - 1;
      Sent(rows, batch[..n], accepted[..n])
        + (if accepted[n] then [Keyed(rows[batch[n]].merchant, rows[batch[n]].record)] else [])
  }

  function Marked(rows: seq<Row>, batch: seq<nat>): seq<Row> {
    seq(|rows|, i requires 0 <= i < |rows| => if i in batch then rows[i].(published := true) else rows[i])
  }

  /** The table and the topic. */
  datatype Board = Board(rows: seq<Row>, topic: seq<Keyed>)

  /** How many sends a run tries before it is stopped. */
  function Tried(batch: seq<nat>, stop: Option<nat>): nat {
    if stop.Some? && stop.value < |batch| then stop.value else |batch|
  }

  /** What a run leaves: the accepted messages of what it tried, and marks only if nothing stopped it. */
  function Worked(b: Board, batch: seq<nat>, accepted: seq<bool>, stop: Option<nat>): Board
    requires |accepted| == |batch|
    requires forall i :: 0 <= i < |batch| ==> batch[i] < |b.rows|
  {
    var n := Tried(batch, stop);
    Board(if stop == None then Marked(b.rows, batch) else b.rows, b.topic + Sent(b.rows, batch[..n], accepted[..n]))
  }

  class OutboxWorker {
    var rows: seq<Row>
    var topic: seq<Keyed>

    function Contents(): Board
      reads this
    {
      Board(rows, topic)
    }

    /** `batch` is the query's answer. With `stop == Some(n)` an exception ends the run after n sends (or,
        for n past the batch, between the flush and the commit); a rejected send is only logged. */
    method PublishPendingEvents(batch: seq<nat>, accepted: seq<bool>, stop: Option<nat>)
      returns (published: Option<nat>)
      requires IsBatch(rows, batch) && |accepted| == |batch|
      modifies this
      ensures Contents() == Worked(old(Contents()), batch, accepted, stop)
      ensures published == if stop == None || batch == [] then Some(|batch|) else None
    {
      if batch == [] {
        assert Marked(rows, batch) == rows && Sent(rows, batch, accepted) == [];
        return Some(0);
      }
      var finished := SendAll(batch, accepted, stop);
      if !finished { return None; }
      assert batch[..|batch|] == batch && accepted[..|batch|] == accepted;
      var snapshot := rows;
      rows := Marked(rows, batch);
      if stop.Some? {
        rows := snapshot;
        return None;
      }
      return Some(|batch|);
    }

    method SendAll(batch: seq<nat>, accepted: seq<bool>, stop: Option<nat>) returns (finished: bool)
      requires |accepted| == |batch|
      requires forall i :: 0 <= i < |batch| ==> batch[i] < |rows|
      modifies this`topic
      ensures finished <==> !(stop.Some? && stop.value < |batch|)
      ensures var n := Tried(batch, stop); topic == old(topic) + Sent(rows, batch[..n], accepted[..n])
    {
      var i := 0;
      while i < |batch|
        invariant 0 <= i <= |batch|
        invariant stop.Some? ==> i <= stop.value
        invariant topic == old(topic) + Sent(rows, batch[..i], accepted[..i])
      {
        if stop == Some(i) { return false; }
        assert batch[..i + 1][..i] == batch[..i] && accepted[..i + 1][..i] == accepted[..i];
        if accepted[i] {
          topic := topic + [Keyed(rows[batch[i]].merchant, rows[batch[i]].record)];
        }
        i := i + 1;
      }
      return true;
    }
  }

  // ---------- Oldest-first batches are outbox order ----------

  /** Commits happen one after another and their events carry strictly increasing times. */
  ghost predicate InCommitOrder(rows: seq<Row>) {
    forall i, j :: 0 <= i < j < |rows| ==> TimeAt(rows, i) < TimeAt(rows, j)
  }

  ghost predicate PublishedUpTo(rows: seq<Row>, k: nat) {
    k <= |rows| && forall i :: 0 <= i < |rows| ==> (rows[i].published <==> i < k)
  }

  lemma {:induction false} BatchIsNext(rows: seq<Row>, batch: seq<nat>, k: nat, i: nat)
    requires InCommitOrder(rows) && PublishedUpTo(rows, k) && IsBatch(rows, batch) && i <= |batch|
    ensures forall j :: 0 <= j < i ==> batch[j] == k + j
  {
    if i > 0 {
      BatchIsNext(rows, batch, k, i - 1);
      var b, next := batch[i - 1], k + i - 1;
      forall j | i - 1 <= j < |batch| ensures b <= batch[j] {}
      assert i > 1 ==> batch[i - 2] < b;
      assert next <= b;
      assert next < b ==> next !in batch;
    }
  }

  /** A poll takes the next rows in outbox order, all of them up to the limit, and marks just those. */
  lemma PollTakesNext(rows: seq<Row>, batch: seq<nat>, k: nat)
    requires InCommitOrder(rows) && PublishedUpTo(rows, k) && IsBatch(rows, batch)
    ensures |batch| == if |rows| - k < 50 then |rows| - k else 50
    ensures forall i :: 0 <= i < |batch| ==> batch[i] == k + i
    ensures PublishedUpTo(Marked(rows, batch), k + |batch|)
  {
    BatchIsNext(rows, batch, k, |batch|);
    forall j | 0 <= j < |rows| ensures j in batch <==> k <= j < k + |batch| {
      if k <= j < k + |batch| { assert batch[j - k] == j; }
    }
    assert |batch| < BATCH_LIMIT && k + |batch| < |rows| ==> k + |batch| !in batch;
    assert |batch| > 0 ==> batch[|batch| - 1] < |rows|;
  }

  // ---------- Sends that raise ----------

  predicate AllAccepted(accepted: seq<bool>) { forall i :: 0 <= i < |accepted| ==> accepted[i] }

  lemma {:induction false} SentOnlyAccepted(rows: seq<Row>, batch: seq<nat>, accepted: seq<bool>, m: Keyed)
    requires |accepted| == |batch| && forall i :: 0 <= i < |batch| ==> batch[i] < |rows|
    ensures m in Sent(rows, batch, accepted) <==>
      exists i :: 0 <= i < |batch| && accepted[i] && m == Keyed(rows[batch[i]].merchant, rows[batch[i]].record)
  {
    if batch != [] {
      var n := |batch| - 1;
      SentOnlyAccepted(rows, batch[..n], accepted[..n], m);
      assert accepted[n] ==> accepted[n] && rows[batch[n]] == rows[batch[n]];
    }
  }

  ghost predicate DistinctIds(rows: seq<Row>) {
    forall i, j :: 0 <= i < j < |rows| ==> rows[i].record.id != rows[j].record.id
  }

  function KeyedAt(rows: seq<Row>, k: nat): Keyed
    requires k < |rows|
  {
    Keyed(rows[k].merchant, rows[k].record)
  }

  lemma {:induction false} SentIff(rows: seq<Row>, batch: seq<nat>, accepted: seq<bool>, n: nat, k: nat)
    requires DistinctIds(rows) && IsBatch(rows, batch) && |accepted| == |batch| && n <= |batch| && k < |rows|
    ensures KeyedAt(rows, k) in Sent(rows, batch[..n], accepted[..n]) <==> exists i :: 0 <= i < n && accepted[i] && batch[i] == k
  {
    SentOnlyAccepted(rows, batch[..n], accepted[..n], KeyedAt(rows, k));
    if i :| 0 <= i < n && accepted[i] && batch[i] == k { assert accepted[..n][i] && batch[..n][i] == k; }
  }

  /** The worker marks what it fetched, not what was accepted. So a committed poll puts every fetched row
      on the topic exactly if no send raised, */
  lemma {:induction false} PollDeliversIff(rows: seq<Row>, batch: seq<nat>, accepted: seq<bool>)
    requires IsBatch(rows, batch) && |accepted| == |batch| && DistinctIds(rows)
    ensures AllAccepted(accepted) <==> forall i :: 0 <= i < |batch| ==>
      Keyed(rows[batch[i]].merchant, rows[batch[i]].record) in Sent(rows, batch, accepted)
  {
    assert batch[..|batch|] == batch && accepted[..|batch|] == accepted;
    forall i | 0 <= i < |batch|
      ensures accepted[i] <==> Keyed(rows[batch[i]].merchant, rows[batch[i]].record) in Sent(rows, batch, accepted)
    {
      SentIff(rows, batch, accepted, |batch|, batch[i]);
    }
  }

  // ---------- Runs of commits and polls ----------

  datatype Move = Append(row: Row) | Work(batch: seq<nat>, accepted: seq<bool>, stop: Option<nat>)

  ghost predicate Possible(b: Board, m: Move) {
    match m
    case Append(row) => !row.published && forall k :: 0 <= k < |b.rows| ==> b.rows[k].record.id != row.record.id
    case Work(batch, accepted, _) => IsBatch(b.rows, batch) && |accepted| == |batch|
  }

  ghost function MoveNext(b: Board, m: Move): Board {
    if !Possible(b, m) then b
    else match m
      case Append(row) => b.(rows := b.rows + [row])
      case Work(batch, accepted, stop) => Worked(b, batch, accepted, stop)
  }

  ghost function RunBoard(b: Board, moves: seq<Move>): Board {
    if moves == [] then b else MoveNext(RunBoard(b, moves[..|moves| - 1]), moves[|moves| - 1])
  }

  /** Row k is marked, and is the row that it was. */
  ghost predicate MarkedAs(rows: seq<Row>, k: nat, x: Keyed) {
    DistinctIds(rows) && k < |rows| && rows[k].published && KeyedAt(rows, k) == x
  }

  /** Nothing ever sends a marked row again. */
  lemma {:induction false} MoveKeepsMarked(b: Board, m: Move, k: nat, x: Keyed)
    requires MarkedAs(b.rows, k, x)
    ensures MarkedAs(MoveNext(b, m).rows, k, x) && (x in MoveNext(b, m).topic <==> x in b.topic)
  {
    if m.Work? && Possible(b, m) { SentIff(b.rows, m.batch, m.accepted, Tried(m.batch, m.stop), k); }
  }

  lemma {:induction false} RunKeepsMarked(b: Board, moves: seq<Move>, k: nat, x: Keyed)
    requires MarkedAs(b.rows, k, x)
    ensures MarkedAs(RunBoard(b, moves).rows, k, x) && (x in RunBoard(b, moves).topic <==> x in b.topic)
  {
    if moves != [] {
      RunKeepsMarked(b, moves[..|moves| - 1], k, x);
      MoveKeepsMarked(RunBoard(b, moves[..|moves| - 1]), moves[|moves| - 1], k, x);
    }
  }

  /** After a committed poll and any commits and polls that follow, a fetched record is on the topic exactly
      if it was there before, or this poll's send of it was accepted. */
  lemma {:induction false} RejectedIsLost(b: Board, batch: seq<nat>, accepted: seq<bool>, i: nat, moves: seq<Move>)
    requires DistinctIds(b.rows) && IsBatch(b.rows, batch) && |accepted| == |batch| && i < |batch|
    ensures var x := KeyedAt(b.rows, batch[i]);
      x in RunBoard(Worked(b, batch, accepted, None), moves).topic <==> x in b.topic || accepted[i]
  {
    var after := Worked(b, batch, accepted, None);
    SentIff(b.rows, batch, accepted, |batch|, batch[i]);
    RunKeepsMarked(after, moves, batch[i], KeyedAt(b.rows, batch[i]));
  }

  // ---------- What a poll means for one key ----------

  function RecordsOf(rows: seq<Row>, m: Id): seq<Record> {
    if rows == [] then []
    else
      var last := rows[|rows| - 1];
      RecordsOf(rows[..|rows| - 1], m) + (if last.merchant == m then [last.record] else [])
  }

  function OfKey(messages: seq<Keyed>, m: Id): seq<Record> {
    if messages == [] then []
    else
      var last := messages[|messages| - 1];
      OfKey(messages[..|messages| - 1], m) + (if last.key == m then [last.record] else [])
  }

  /** Which of the sends from row k on, those for this key, were accepted. */
  function FlagsOf(rows: seq<Row>, k: nat, accepted: seq<bool>, m: Id): seq<bool>
    requires k + |accepted| <= |rows|
  {
    if accepted == [] then []
    else
      var n := |accepted| - 1;
      FlagsOf(rows, k, accepted[..n], m) + (if rows[k + n].merchant == m then [accepted[n]] else [])
  }

  lemma {:induction false} OfKeyAppend(messages: seq<Keyed>, x: Keyed, m: Id)
    ensures OfKey(messages + [x], m) == OfKey(messages, m) + (if x.key == m then [x.record] else [])
  {
    assert (messages + [x])[..|messages|] == messages;
  }

  lemma {:induction false} RecordsPrefix(rows: seq<Row>, k: nat, m: Id)
    requires k <= |rows|
    ensures RecordsOf(rows[..k], m) <= RecordsOf(rows, m)
  {
    if k == |rows| {
      assert rows[..k] == rows;
    } else {
      RecordsPrefix(rows[..|rows| - 1], k, m);
      assert rows[..|rows| - 1][..k] == rows[..k];
    }
  }

  /** The row at q is the next record of its key. */
  lemma {:induction false} RowIsNext(rows: seq<Row>, q: nat, m: Id)
    requires q < |rows|
    ensures var p := |RecordsOf(rows[..q], m)|;
      && |RecordsOf(rows[..q + 1], m)| == p + (if rows[q].merchant == m then 1 else 0)
      && (rows[q].merchant == m ==> p < |RecordsOf(rows, m)| && RecordsOf(rows, m)[p] == rows[q].record)
  {
    assert rows[..q + 1][..q] == rows[..q];
    RecordsPrefix(rows, q + 1, m);
  }

  lemma {:induction false} FlagsFit(rows: seq<Row>, k: nat, accepted: seq<bool>, m: Id)
    requires k + |accepted| <= |rows|
    ensures |RecordsOf(rows[..k], m)| + |FlagsOf(rows, k, accepted, m)| == |RecordsOf(rows[..k + |accepted|], m)|
    ensures |RecordsOf(rows[..k + |accepted|], m)| <= |RecordsOf(rows, m)|
  {
    RecordsPrefix(rows, k + |accepted|, m);
    if accepted != [] {
      var n := |accepted| - 1;
      FlagsFit(rows, k, accepted[..n], m);
      RowIsNext(rows, k + n, m);
    }
  }

  /** The consecutive rows from k on, as a batch. */
  predicate From(batch: seq<nat>, k: nat) { forall i :: 0 <= i < |batch| ==> batch[i] == k + i }

  /** On each key the sends of a poll, cut off anywhere and some of them rejected, are sends of that key's
      next records. */
  lemma {:induction false} SendsOnLane(rows: seq<Row>, batch: seq<nat>, accepted: seq<bool>, k: nat, m: Id)
    requires |accepted| == |batch| && k + |batch| <= |rows| && From(batch, k)
    ensures |RecordsOf(rows[..k], m)| + |FlagsOf(rows, k, accepted, m)| <= |RecordsOf(rows, m)|
    ensures OfKey(Sent(rows, batch, accepted), m)
         == SentOf(RecordsOf(rows, m), |RecordsOf(rows[..k], m)|, FlagsOf(rows, k, accepted, m))
  {
    FlagsFit(rows, k, accepted, m);
    if batch != [] {
      var n := |batch| - 1;
      SendsOnLane(rows, batch[..n], accepted[..n], k, m);
      FlagsFit(rows, k, accepted[..n], m);
      SendOnLane(rows, batch, accepted, k, n, m, RecordsOf(rows, m), |RecordsOf(rows[..k], m)|);
    }
  }

  lemma {:induction false} SendOnLane(rows: seq<Row>, batch: seq<nat>, accepted: seq<bool>, k: nat, n: nat, m: Id,
                                      all: seq<Record>, p: nat)
    requires |accepted| == |batch| == n + 1 && k + |batch| <= |rows| && From(batch, k)
    requires all == RecordsOf(rows, m) && p == |RecordsOf(rows[..k], m)|
    requires p + |FlagsOf(rows, k, accepted, m)| <= |all|
    requires p + |FlagsOf(rows, k, accepted[..n], m)| == |RecordsOf(rows[..k + n], m)| <= |all|
    requires OfKey(Sent(rows, batch[..n], accepted[..n]), m) == SentOf(all, p, FlagsOf(rows, k, accepted[..n], m))
    ensures OfKey(Sent(rows, batch, accepted), m) == SentOf(all, p, FlagsOf(rows, k, accepted, m))
  {
    var x, flags := KeyedAt(rows, k + n), FlagsOf(rows, k, accepted[..n], m);
    RowIsNext(rows, k + n, m);
    if accepted[n] { OfKeyAppend(Sent(rows, batch[..n], accepted[..n]), x, m); }
    assert Sent(rows, batch, accepted) == Sent(rows, batch[..n], accepted[..n]) + (if accepted[n] then [x] else []);
    if x.key == m {
      assert FlagsOf(rows, k, accepted, m) == flags + [accepted[n]];
      SentAppend(all, p, flags, accepted[n]);
    } else {
      assert FlagsOf(rows, k, accepted, m) == flags;
    }
    assert Sent(rows, batch[..n], accepted[..n]) + [] == Sent(rows, batch[..n], accepted[..n]);
  }

  lemma {:induction false} SentAppend(all: seq<Record>, p: nat, flags: seq<bool>, flag: bool)
    requires p + |flags| < |all|
    ensures SentOf(all, p, flags + [flag]) == SentOf(all, p, flags) + (if flag then [all[p + |flags|]] else [])
  {
    assert (flags + [flag])[..|flags|] == flags;
  }

  // ---------- A rejected send, a crash, and a resend ----------

  function Pending(m: Id, first: Record, second: Record): seq<Row> { [Row(m, first, false), Row(m, second, false)] }

  lemma {:induction false} TwoRows(m: Id, first: Record, second: Record)
    ensures RecordsOf(Pending(m, first, second), m) == [first, second]
  {
    var rows := Pending(m, first, second);
    assert rows[..1][..0] == [] && rows[..1][0] == rows[0];
    assert RecordsOf(rows[..1], m) == RecordsOf([], m) + [first];
  }

  lemma {:induction false} TwoSends(m: Id, first: Record, second: Record, accepted: seq<bool>)
    requires |accepted| == 2
    ensures Sent(Pending(m, first, second), [0, 1], accepted)
         == (if accepted[0] then [Keyed(m, first)] else []) + (if accepted[1] then [Keyed(m, second)] else [])
  {
    var batch: seq<nat> := [0, 1];
    var rows := Pending(m, first, second);
    assert batch[..1][..0] == [] && batch[..1][0] == 0 && accepted[..1][..0] == [];
    assert Sent(rows, batch[..1], accepted[..1]) == Sent(rows, [], []) + (if accepted[0] then [KeyedAt(rows, 0)] else []);
  }

  const REJECTED: Move := Work([0, 1], [false, true], Some(2))
  const RESENT: Move := Work([0, 1], [true, true], None)

  lemma {:induction false} TwoMoves(b: Board, x: Move, y: Move)
    ensures RunBoard(b, [x, y]) == MoveNext(MoveNext(b, x), y)
  {
    assert [x, y][..1][..0] == [] && [x, y][..1][0] == x;
    assert RunBoard(b, [x, y][..1]) == MoveNext(b, x);
  }

  lemma {:induction false} WholeBatch(b: Board, batch: seq<nat>, accepted: seq<bool>, stop: Option<nat>)
    requires IsBatch(b.rows, batch) && |accepted| == |batch| && Tried(batch, stop) == |batch|
    ensures MoveNext(b, Work(batch, accepted, stop))
         == Board(if stop == None then Marked(b.rows, batch) else b.rows, b.topic + Sent(b.rows, batch, accepted))
  {
    assert batch[..|batch|] == batch && accepted[..|batch|] == accepted;
  }

  /** A run that dies between flush and commit is followed by one that sends the same batch again. */
  lemma {:induction false} TwoPolls(rows: seq<Row>, batch: seq<nat>, once: seq<bool>, again: seq<bool>, end: Option<nat>)
    requires IsBatch(rows, batch) && |once| == |again| == |batch| && end == Some(|batch|)
    ensures RunBoard(Board(rows, []), [Work(batch, once, end), Work(batch, again, None)]).topic
         == Sent(rows, batch, once) + Sent(rows, batch, again)
  {
    var start, dies, second := Board(rows, []), Work(batch, once, end), Work(batch, again, None);
    TwoMoves(start, dies, second);
    WholeBatch(start, batch, once, end);
    WholeBatch(Board(rows, [] + Sent(rows, batch, once)), batch, again, None);
    assert [] + Sent(rows, batch, once) == Sent(rows, batch, once);
  }

  /** The send of the first of two pending rows raises, the worker dies before its commit, and the next run
      sends both: the second record is on the topic before the first. */
  lemma {:induction false} RejectedSendReorders(m: Id, first: Record, second: Record)
    requires first.id != second.id && first.createdAt < second.createdAt
    ensures var rows := Pending(m, first, second);
      var topic := RunBoard(Board(rows, []), [REJECTED, RESENT]).topic;
      && topic == Sent(rows, [0, 1], [false, true]) + Sent(rows, [0, 1], [true, true])
      && OfKey(topic, m) == [second, first, second]
      && !Staged(OfKey(topic, m), RecordsOf(rows, m))
  {
    var rows := Pending(m, first, second);
    TwoPolls(rows, [0, 1], [false, true], [true, true], Some(2));
    TwoSends(m, first, second, [false, true]);
    TwoSends(m, first, second, [true, true]);
    TwoRows(m, first, second);
    assert RunBoard(Board(rows, []), [REJECTED, RESENT]).topic
        == [Keyed(m, second), Keyed(m, first), Keyed(m, second)];
    ThreeOfKey(m, second, first, second);
    FirstMustBeFirst([second, first, second], [first, second]);
  }

  lemma {:induction false} ThreeOfKey(m: Id, a: Record, b: Record, c: Record)
    ensures OfKey([Keyed(m, a), Keyed(m, b), Keyed(m, c)], m) == [a, b, c]
  {
    OfKeyAppend([], Keyed(m, a), m);
    OfKeyAppend([Keyed(m, a)], Keyed(m, b), m);
    OfKeyAppend([Keyed(m, a), Keyed(m, b)], Keyed(m, c), m);
    assert [] + [Keyed(m, a)] == [Keyed(m, a)];
    assert [Keyed(m, a)] + [Keyed(m, b)] == [Keyed(m, a), Keyed(m, b)];
    assert [Keyed(m, a), Keyed(m, b)] + [Keyed(m, c)] == [Keyed(m, a), Keyed(m, b), Keyed(m, c)];
  }

  lemma {:induction false} FirstMustBeFirst(log: seq<Record>, outbox: seq<Record>)
    requires log != [] && outbox != [] && log[0] != outbox[0]
    ensures !Staged(log, outbox)
  {
    var one := log[..1];
    assert one[..|one| - 1] == [] && one[|one| - 1] == log[0];
    assert High(one, outbox) == 0;
    if Staged(log, outbox) { StagedPrefix(log, outbox, 1); }
  }
}
