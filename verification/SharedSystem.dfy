/** All merchants together: one outbox table, one worker, one topic with partitions, one consumer, one read
    database. */
module SharedSystem {
  import opened Domain
  import opened CoreTables
  import opened CoreInvariants
  import opened ReadTables
  import opened Replay
  import opened SyncConsumer
  import opened Outbox
  import opened Interleaving
  import Pipeline

  /** A merchant's schema name, and the partition that its key is hashed to. */
  datatype Home = Home(schema: string, partition: nat)

  datatype Offsets = Offsets(position: nat, committed: nat, reach: nat)

  datatype Entry = Entry(message: Message, fate: Fate)

  /** `front`: how many rows are marked. `offsets`: the consumer's, by partition; `reach` and `handled`
      record the past, as in a lane. */
  datatype System = System(cores: map<Id, Core>, homes: map<Id, Home>, rows: seq<Row>, front: nat, topic: seq<Keyed>,
                           offsets: map<nat, Offsets>, db: Database, claims: set<Id>, handled: seq<Entry>)

  const NO_OFFSETS := Offsets(0, 0, 0)
  const NO_MERCHANTS := System(map[], map[], [], 0, [], map[], EMPTY, {}, [])

  datatype Action =
    | Create(merchant: Id, profile: Profile, home: Home, eventId: Id, now: Time)
    | Transact(merchant: Id, tx: Tx)
    | Publish(batch: seq<nat>, accepted: seq<bool>, stop: Option<nat>)
    | Read(partition: nat, env: Env, ack: bool)
    | Reset(partition: nat, to: nat)

  /** The messages of one partition, in order. */
  function PartLog(topic: seq<Keyed>, homes: map<Id, Home>, k: nat): seq<Keyed> {
    if topic == [] then []
    else
      var last := topic[|topic| - 1];
      PartLog(topic[..|topic| - 1], homes, k) + (if last.key in homes && homes[last.key].partition == k then [last] else [])
  }

  function LogOf(s: System, k: nat): seq<Keyed> { PartLog(s.topic, s.homes, k) }

  function OffsetsOf(s: System, k: nat): Offsets { if k in s.offsets then s.offsets[k] else NO_OFFSETS }

  /** Event ids are the primary key of the outbox, and commits come with later and later times. */
  predicate NewRow(rows: seq<Row>, eventId: Id, now: Time) {
    forall i :: 0 <= i < |rows| ==> rows[i].record.id != eventId && rows[i].record.createdAt < now
  }

  ghost predicate Enabled(s: System, a: Action) {
    match a
    case Create(m, _, home, eventId, now) =>
      m !in s.cores && NewRow(s.rows, eventId, now) && forall x :: x in s.homes ==> s.homes[x].schema != home.schema
    case Transact(m, tx) => m in s.cores && NewRow(s.rows, tx.eventId, tx.now)
    case Publish(batch, accepted, _) => IsBatch(s.rows, batch) && |accepted| == |batch|
    case Read(k, _, _) => OffsetsOf(s, k).position < |LogOf(s, k)|
    case Reset(k, to) => to <= OffsetsOf(s, k).committed
  }

  function WithMerchant(s: System, m: Id, profile: Profile, home: Home, eventId: Id, now: Time): System {
    var core := Genesis(profile, eventId, now);
    s.(cores := s.cores[m := core], homes := s.homes[m := home], rows := s.rows + [Row(m, core.outbox[0], false)])
  }

  function AfterTransaction(s: System, m: Id, tx: Tx): System
    requires m in s.cores
  {
    var o := Execute(s.cores[m], tx);
    if o.Err? || o.core.outbox == [] then s
    else s.(cores := s.cores[m := o.core], rows := s.rows + [Row(m, o.core.outbox[|o.core.outbox| - 1], false)])
  }

  function AfterPublishing(s: System, batch: seq<nat>, accepted: seq<bool>, stop: Option<nat>): System
    requires |accepted| == |batch| && forall i :: 0 <= i < |batch| ==> batch[i] < |s.rows|
  {
    var after := Worked(Board(s.rows, s.topic), batch, accepted, stop);
    s.(rows := after.rows, topic := after.topic, front := if stop == None then s.front + |batch| else s.front)
  }

  /** The message at the position, as its merchant's handlers see it. */
  function MessageAt(s: System, k: nat): Message
    requires OffsetsOf(s, k).position < |LogOf(s, k)|
  {
    var x := LogOf(s, k)[OffsetsOf(s, k).position];
    Message(x.key, if x.key in s.homes then s.homes[x.key].schema else "", x.record)
  }

  function FateAt(s: System, x: Message, env: Env): Fate {
    FateOf(Slice(s.db, x.merchant, x.schema), x.record.event, env)
  }

  /** Claims the message's event and settles its fate. */
  function AfterClaim(s: System, x: Message, env: Env): System {
    var f := FateAt(s, x, env);
    s.(db := Stored(s.db, x.merchant, x.schema, Settle(Slice(s.db, x.merchant, x.schema), x.record.event, f)),
       claims := s.claims + {x.record.id}, handled := s.handled + [Entry(x, f)])
  }

  function OffsetsAfter(o: Offsets, env: Env, isNew: bool, ack: bool): Offsets {
    if env.CrashBeforeClaim? then o.(position := o.committed)
    else
      var crashed := isNew && env.CrashInClaim?;
      Offsets(if crashed then o.committed else o.position + 1,
              if !crashed && ack then o.position + 1 else o.committed,
              Pipeline.Max(o.reach, o.position + 1))
  }

  function AfterReading(s: System, k: nat, env: Env, ack: bool): System
    requires OffsetsOf(s, k).position < |LogOf(s, k)|
  {
    var x := MessageAt(s, k);
    var isNew := x.record.id !in s.claims;
    var after := if isNew && !env.CrashBeforeClaim? then AfterClaim(s, x, env) else s;
    after.(offsets := s.offsets[k := OffsetsAfter(OffsetsOf(s, k), env, isNew, ack)])
  }

  ghost function Next(s: System, a: Action): System {
    if !Enabled(s, a) then s
    else match a
      case Create(m, profile, home, eventId, now) => WithMerchant(s, m, profile, home, eventId, now)
      case Transact(m, tx) => AfterTransaction(s, m, tx)
      case Publish(batch, accepted, stop) => AfterPublishing(s, batch, accepted, stop)
      case Read(k, env, ack) => AfterReading(s, k, env, ack)
      case Reset(k, to) => s.(offsets := s.offsets[k := OffsetsOf(s, k).(position := to)])
  }

  ghost function RunSystem(actions: seq<Action>): System {
    if actions == [] then NO_MERCHANTS else Next(RunSystem(actions[..|actions| - 1]), actions[|actions| - 1])
  }

  // ---------- What every run keeps ----------

  predicate HomesSane(cores: map<Id, Core>, homes: map<Id, Home>) {
    && homes.Keys == cores.Keys
    && forall m, n :: m in homes && n in homes && homes[m].schema == homes[n].schema ==> m == n
  }

  /** Every message is a row of the table, and its merchant is known. */
  predicate TopicSound(topic: seq<Keyed>, rows: seq<Row>, homes: map<Id, Home>) {
    forall i :: 0 <= i < |topic| ==> topic[i].key in homes && topic[i].record in RecordsOf(rows, topic[i].key)
  }

  predicate OffsetsSound(o: Offsets, n: nat) { o.position <= o.reach && o.committed <= o.reach <= n }

  ghost predicate AllOffsetsSound(s: System) { forall k: nat :: OffsetsSound(OffsetsOf(s, k), |LogOf(s, k)|) }

  /** Claims, history and read database speak only of known rows and merchants. */
  predicate ClaimsSound(claims: set<Id>, rows: seq<Row>) {
    forall id :: id in claims ==> exists i :: 0 <= i < |rows| && rows[i].record.id == id
  }

  predicate HandledSound(handled: seq<Entry>, homes: map<Id, Home>) {
    forall i :: 0 <= i < |handled| ==> RoutedHome(handled[i].message, homes)
  }

  predicate RoutedHome(x: Message, homes: map<Id, Home>) {
    x.merchant in homes && x.schema == homes[x.merchant].schema
  }

  predicate DbSound(db: Database, homes: map<Id, Home>) {
    && (forall m :: m in db.merchants ==> m in homes)
    && (forall n :: n in db.schemas ==> exists m :: m in homes && homes[m].schema == n)
  }

  ghost predicate RowsSound(rows: seq<Row>, front: nat, homes: map<Id, Home>) {
    && DistinctIds(rows) && InCommitOrder(rows) && PublishedUpTo(rows, front)
    && forall i :: 0 <= i < |rows| ==> rows[i].merchant in homes
  }

  ghost predicate Sound(s: System) {
    && HomesSane(s.cores, s.homes) && RowsSound(s.rows, s.front, s.homes) && TopicSound(s.topic, s.rows, s.homes)
    && AllOffsetsSound(s) && ClaimsSound(s.claims, s.rows) && HandledSound(s.handled, s.homes) && DbSound(s.db, s.homes)
  }

  // ---------- Logs, partitions and keys ----------

  lemma {:induction false} PartConcat(a: seq<Keyed>, b: seq<Keyed>, homes: map<Id, Home>, k: nat)
    ensures PartLog(a + b, homes, k) == PartLog(a, homes, k) + PartLog(b, homes, k)
  {
    if b == [] {
      assert a + b == a;
    } else {
      PartConcat(a, b[..|b| - 1], homes, k);
      assert (a + b)[..|a + b| - 1] == a + b[..|b| - 1];
    }
  }

  lemma {:induction false} OfKeyConcat(a: seq<Keyed>, b: seq<Keyed>, m: Id)
    ensures OfKey(a + b, m) == OfKey(a, m) + OfKey(b, m)
  {
    if b == [] {
      assert a + b == a;
    } else {
      OfKeyConcat(a, b[..|b| - 1], m);
      assert (a + b)[..|a + b| - 1] == a + b[..|b| - 1];
    }
  }

  /** A merchant's messages are all on its partition, in order. */
  lemma {:induction false} KeyOnPartition(topic: seq<Keyed>, homes: map<Id, Home>, m: Id)
    requires m in homes
    ensures OfKey(PartLog(topic, homes, homes[m].partition), m) == OfKey(topic, m)
  {
    if topic != [] {
      var before, last := topic[..|topic| - 1], topic[|topic| - 1];
      KeyOnPartition(before, homes, m);
      var part := PartLog(before, homes, homes[m].partition);
      if last.key in homes && homes[last.key].partition == homes[m].partition {
        OfKeyAppend(part, last, m);
      } else {
        assert part + [] == part && OfKey(before, m) + [] == OfKey(before, m);
      }
    }
  }

  /** What is on a partition is on the topic, and belongs there. */
  lemma {:induction false} OnPartition(topic: seq<Keyed>, homes: map<Id, Home>, k: nat)
    ensures forall i :: 0 <= i < |PartLog(topic, homes, k)| ==>
      var x := PartLog(topic, homes, k)[i]; x in topic && x.key in homes && homes[x.key].partition == k
  {
    if topic != [] { OnPartition(topic[..|topic| - 1], homes, k); }
  }

  lemma {:induction false} NewHomeSamePartitions(topic: seq<Keyed>, homes: map<Id, Home>, m: Id, home: Home, k: nat)
    requires m !in homes && forall i :: 0 <= i < |topic| ==> topic[i].key in homes
    ensures PartLog(topic, homes[m := home], k) == PartLog(topic, homes, k)
  {
    if topic != [] { NewHomeSamePartitions(topic[..|topic| - 1], homes, m, home, k); }
  }

  lemma {:induction false} NoSuchKey(topic: seq<Keyed>, m: Id)
    requires forall i :: 0 <= i < |topic| ==> topic[i].key != m
    ensures OfKey(topic, m) == []
  {
    if topic != [] { NoSuchKey(topic[..|topic| - 1], m); }
  }

  /** How many of the first i messages are the merchant's. */
  function Count(log: seq<Keyed>, i: nat, m: Id): nat
    requires i <= |log|
  {
    |OfKey(log[..i], m)|
  }

  lemma {:induction false} KeyPrefix(log: seq<Keyed>, i: nat, m: Id)
    requires i <= |log|
    ensures OfKey(log[..i], m) <= OfKey(log, m)
  {
    OfKeyConcat(log[..i], log[i..], m);
    assert log[..i] + log[i..] == log;
  }

  lemma {:induction false} CountMono(log: seq<Keyed>, i: nat, j: nat, m: Id)
    requires i <= j <= |log|
    ensures Count(log, i, m) <= Count(log, j, m) <= |OfKey(log, m)|
  {
    assert log[..j][..i] == log[..i];
    KeyPrefix(log[..j], i, m);
    KeyPrefix(log, j, m);
  }

  lemma {:induction false} CountNext(log: seq<Keyed>, i: nat, m: Id)
    requires i < |log|
    ensures Count(log, i + 1, m) == Count(log, i, m) + (if log[i].key == m then 1 else 0)
    ensures log[i].key == m ==>
      Count(log, i, m) < |OfKey(log, m)| && OfKey(log, m)[Count(log, i, m)] == log[i].record
  {
    assert log[..i + 1] == log[..i] + [log[i]];
    OfKeyAppend(log[..i], log[i], m);
    KeyPrefix(log, i + 1, m);
  }

  lemma {:induction false} CountGrows(log: seq<Keyed>, more: seq<Keyed>, i: nat, m: Id)
    requires i <= |log|
    ensures Count(log + more, i, m) == Count(log, i, m)
  {
    assert (log + more)[..i] == log[..i];
  }

  // ---------- Rows and keys ----------

  lemma {:induction false} RecordsAppend(rows: seq<Row>, row: Row, m: Id)
    ensures RecordsOf(rows + [row], m) == RecordsOf(rows, m) + (if row.merchant == m then [row.record] else [])
  {
    assert (rows + [row])[..|rows|] == rows;
  }

  lemma {:induction false} RecordHasRow(rows: seq<Row>, m: Id, r: Record) returns (k: nat)
    requires r in RecordsOf(rows, m)
    ensures k < |rows| && rows[k].merchant == m && rows[k].record == r
  {
    var last := rows[|rows| - 1];
    if last.merchant == m && last.record == r {
      k := |rows| - 1;
    } else {
      k := RecordHasRow(rows[..|rows| - 1], m, r);
    }
  }

  lemma {:induction false} RowHasRecord(rows: seq<Row>, k: nat)
    requires k < |rows|
    ensures rows[k].record in RecordsOf(rows, rows[k].merchant)
  {
    RowIsNext(rows, k, rows[k].merchant);
  }

  lemma {:induction false} NoSuchMerchant(rows: seq<Row>, m: Id)
    requires forall i :: 0 <= i < |rows| ==> rows[i].merchant != m
    ensures RecordsOf(rows, m) == []
  {
    if rows != [] { NoSuchMerchant(rows[..|rows| - 1], m); }
  }

  /** Marks do not change what the rows record. */
  lemma {:induction false} SameRecords(rows: seq<Row>, after: seq<Row>, m: Id)
    requires |rows| == |after|
    requires forall i :: 0 <= i < |rows| ==> rows[i].merchant == after[i].merchant && rows[i].record == after[i].record
    ensures RecordsOf(rows, m) == RecordsOf(after, m)
  {
    if rows != [] { SameRecords(rows[..|rows| - 1], after[..|after| - 1], m); }
  }

  /** Different merchants have different event ids. */
  lemma {:induction false} OtherIds(rows: seq<Row>, a: Id, r: Record, m: Id)
    requires DistinctIds(rows) && r in RecordsOf(rows, a) && a != m
    ensures r.id !in Ids(RecordsOf(rows, m))
  {
    forall i | 0 <= i < |RecordsOf(rows, m)| ensures RecordsOf(rows, m)[i].id != r.id {
      var j := RecordHasRow(rows, a, r);
      var k := RecordHasRow(rows, m, RecordsOf(rows, m)[i]);
    }
  }

  lemma {:induction false} MemberHasId(records: seq<Record>, r: Record)
    requires r in records
    ensures r.id in Ids(records)
  {
    var i :| 0 <= i < |records| && records[i] == r;
  }
}
