/** The shared system behaves, for each merchant, as that merchant's lane. */
module Simulation {
  import opened Domain
  import opened CoreTables
  import opened CoreInvariants
  import opened ReadTables
  import opened SyncConsumer
  import opened Outbox
  import opened Staging
  import opened Interleaving
  import opened SharedSystem
  import opened SystemBooks
  import Pipeline

  // ---------- One merchant's part of it ----------

  function HandledOf(handled: seq<Entry>, m: Id): seq<Pipeline.Handled> {
    if handled == [] then []
    else
      var last := handled[|handled| - 1];
      HandledOf(handled[..|handled| - 1], m)
        + (if last.message.merchant == m then [Pipeline.Handled(last.message.record, last.fate)] else [])
  }

  ghost predicate SimCore(rows: seq<Row>, front: nat, core: Core, m: Id, l: Pipeline.Lane) {
    && l.core == core && core.outbox == RecordsOf(rows, m)
    && front <= |rows| && l.published == |RecordsOf(rows[..front], m)|
  }

  predicate SimOffsets(log: seq<Keyed>, o: Offsets, m: Id, l: Pipeline.Lane) {
    && OffsetsSound(o, |log|) && l.position == Count(log, o.position, m)
    && l.committed == Count(log, o.committed, m) && l.reach == Count(log, o.reach, m)
  }

  predicate SimClaims(claims: set<Id>, outbox: seq<Record>, l: Pipeline.Lane) {
    l.consumer.claims == set id | id in claims && id in Ids(outbox)
  }

  predicate SimReads(s: System, m: Id, l: Pipeline.Lane)
    requires m in s.homes
  {
    && l.log == OfKey(s.topic, m)
    && l.consumer.side == Slice(s.db, m, s.homes[m].schema)
    && l.handled == HandledOf(s.handled, m)
    && SimClaims(s.claims, RecordsOf(s.rows, m), l)
  }

  /** The lane shows what the system holds for this merchant. */
  ghost predicate Sim(s: System, m: Id, l: Pipeline.Lane) {
    && m in s.cores && m in s.homes
    && SimCore(s.rows, s.front, s.cores[m], m, l)
    && SimOffsets(LogOf(s, s.homes[m].partition), OffsetsOf(s, s.homes[m].partition), m, l)
    && SimReads(s, m, l)
  }

  /** The step that a lane takes when the system acts, if any. */
  ghost function LocalStep(s: System, a: Action, m: Id): Option<Pipeline.Step>
    requires m in s.homes
  {
    if !Enabled(s, a) then None
    else match a
      case Create(_, _, _, _, _) => None
      case Transact(merchant, tx) => if merchant == m then Some(Pipeline.Commit(tx)) else None
      case Publish(batch, accepted, stop) =>
        if s.front + |batch| > |s.rows| then None
        else Some(Pipeline.Poll(FlagsOf(s.rows, s.front, accepted[..Tried(batch, stop)], m), stop == None))
      case Read(k, env, ack) => if k == s.homes[m].partition then LocalRead(s, k, env, ack, m) else None
      case Reset(k, to) =>
        if k == s.homes[m].partition && to <= |LogOf(s, k)| then Some(Pipeline.Rewind(Count(LogOf(s, k), to, m))) else None
  }

  /** A message of another merchant on the same partition moves the offsets past nothing of this one's. */
  function LocalRead(s: System, k: nat, env: Env, ack: bool, m: Id): Option<Pipeline.Step>
    requires OffsetsOf(s, k).position < |LogOf(s, k)|
  {
    var x, o := MessageAt(s, k), OffsetsOf(s, k);
    if x.merchant == m then Some(Pipeline.Consume(env, ack))
    else if env.CrashBeforeClaim? || (x.record.id !in s.claims && env.CrashInClaim?) then
      if o.committed <= |LogOf(s, k)| then Some(Pipeline.Rewind(Count(LogOf(s, k), o.committed, m))) else None
    else if ack then Some(Pipeline.Acknowledge) else None
  }

  function Moved(l: Pipeline.Lane, step: Option<Pipeline.Step>): Pipeline.Lane {
    if step.Some? then Pipeline.Next(l, step.value) else l
  }

  // ---------- Each action simulates ----------

  lemma {:induction false} SimTransactOwn(s: System, m: Id, tx: Tx, l: Pipeline.Lane)
    requires Sound(s) && Sim(s, m, l) && Enabled(s, Transact(m, tx))
    ensures Sim(AfterTransaction(s, m, tx), m, Pipeline.Next(l, Pipeline.Commit(tx)))
  {
    var moved := Pipeline.Next(l, Pipeline.Commit(tx));
    if Execute(s.cores[m], tx).Ok? {
      var row := TransactedRow(s, m, tx);
      SimAppend(s, AfterTransaction(s, m, tx), row, m, l, moved);
    } else {
      SimSame(s, m, l, moved);
    }
  }

  lemma SimSame(s: System, m: Id, l: Pipeline.Lane, moved: Pipeline.Lane)
    requires Sim(s, m, l) && moved == l.(history := moved.history)
    ensures Sim(s, m, moved)
  {
  }

  lemma SimOffsetsMoved(log: seq<Keyed>, o: Offsets, m: Id, l: Pipeline.Lane, moved: Pipeline.Lane)
    requires SimOffsets(log, o, m, l)
    requires moved.position == l.position && moved.committed == l.committed && moved.reach == l.reach
    ensures SimOffsets(log, o, m, moved)
  {
  }

  lemma {:induction false} SimCoreAppend(rows: seq<Row>, front: nat, row: Row, core: Core, m: Id, l: Pipeline.Lane, moved: Pipeline.Lane)
    requires front <= |rows| && l.core.outbox == RecordsOf(rows, m) && l.published == |RecordsOf(rows[..front], m)|
    requires moved.core == core && moved.published == l.published
    requires core.outbox == l.core.outbox + (if row.merchant == m then [row.record] else [])
    ensures SimCore(rows + [row], front, core, m, moved)
  {
    RecordsAppend(rows, row, m);
    assert (rows + [row])[..front] == rows[..front];
  }

  /** One more row in the table, with a new event id. */
  lemma {:induction false} SimAppend(s: System, after: System, row: Row, m: Id, l: Pipeline.Lane, moved: Pipeline.Lane)
    requires Sim(s, m, l) && ClaimsSound(s.claims, s.rows) && NewRow(s.rows, row.record.id, row.record.createdAt)
    requires m in after.cores && after == s.(cores := after.cores, rows := s.rows + [row])
    requires moved == l.(core := after.cores[m], history := moved.history)
    requires moved.core.outbox == l.core.outbox + (if row.merchant == m then [row.record] else [])
    ensures Sim(after, m, moved)
  {
    var k := s.homes[m].partition;
    SimCoreAppend(s.rows, s.front, row, after.cores[m], m, l, moved);
    SimOffsetsMoved(LogOf(s, k), OffsetsOf(s, k), m, l, moved);
    NewClaimsNothing(s.claims, s.rows, row, m);
    SimReadsAppend(s, after, row, m, l, moved);
    SimHolds(after, m, moved);
  }

  lemma {:induction false} SimReadsAppend(s: System, after: System, row: Row, m: Id, l: Pipeline.Lane, moved: Pipeline.Lane)
    requires m in s.homes && SimReads(s, m, l)
    requires after == s.(cores := after.cores, rows := s.rows + [row])
    requires (set id | id in s.claims && id in Ids(RecordsOf(s.rows + [row], m)))
          == (set id | id in s.claims && id in Ids(RecordsOf(s.rows, m)))
    requires moved.log == l.log && moved.consumer == l.consumer && moved.handled == l.handled
    ensures SimReads(after, m, moved)
  {
  }

  /** A new event id is not claimed. */
  lemma {:induction false} NewClaimsNothing(claims: set<Id>, rows: seq<Row>, row: Row, m: Id)
    requires ClaimsSound(claims, rows) && NewRow(rows, row.record.id, row.record.createdAt)
    ensures (set id | id in claims && id in Ids(RecordsOf(rows + [row], m)))
         == (set id | id in claims && id in Ids(RecordsOf(rows, m)))
  {
    assert row.record.id !in claims;
    RecordsAppend(rows, row, m);
    if row.merchant == m {
      Pipeline.IdsExtend(RecordsOf(rows, m), row.record);
    } else {
      assert RecordsOf(rows + [row], m) == RecordsOf(rows, m);
    }
  }

  lemma {:induction false} SimTransact(s: System, merchant: Id, tx: Tx, m: Id, l: Pipeline.Lane)
    requires Sound(s) && Sim(s, m, l) && Enabled(s, Transact(merchant, tx))
    ensures Sim(AfterTransaction(s, merchant, tx), m, Moved(l, LocalStep(s, Transact(merchant, tx), m)))
  {
    if merchant == m {
      SimTransactOwn(s, m, tx, l);
    } else if Execute(s.cores[merchant], tx).Ok? {
      var row := TransactedRow(s, merchant, tx);
      assert l.core.outbox + [] == l.core.outbox;
      SimAppend(s, AfterTransaction(s, merchant, tx), row, m, l, l);
    }
  }

  lemma {:induction false} SimNewHome(s: System, x: Id, home: Home, m: Id, l: Pipeline.Lane)
    requires Sound(s) && Sim(s, m, l) && x !in s.homes
    ensures Sim(s.(homes := s.homes[x := home]), m, l)
  {
    NewHomeSamePartitions(s.topic, s.homes, x, home, s.homes[m].partition);
  }

  lemma {:induction false} SimCreate(s: System, x: Id, profile: Profile, home: Home, eventId: Id, now: Time, m: Id, l: Pipeline.Lane)
    requires Sound(s) && Sim(s, m, l) && Enabled(s, Create(x, profile, home, eventId, now))
    ensures Sim(WithMerchant(s, x, profile, home, eventId, now), m, l)
  {
    var after := WithMerchant(s, x, profile, home, eventId, now);
    SimNewHome(s, x, home, m, l);
    assert l.core.outbox + [] == l.core.outbox;
    SimAppend(s.(homes := s.homes[x := home]), after, after.rows[|s.rows|], m, l, l);
  }

  /** A merchant just created is a lane that just started. */
  lemma {:induction false} SimBirth(s: System, m: Id, profile: Profile, home: Home, eventId: Id, now: Time)
    requires Sound(s) && Enabled(s, Create(m, profile, home, eventId, now))
    ensures Sim(WithMerchant(s, m, profile, home, eventId, now), m, Pipeline.Start(profile, eventId, now))
  {
    var after := WithMerchant(s, m, profile, home, eventId, now);
    var row := after.rows[|s.rows|];
    BirthRows(s.rows, s.front, m, row);
    assert Ids(RecordsOf(s.rows, m)) == {};
    CreateSound(s, m, profile, home, eventId, now);
    BirthReads(s, m, home.schema);
    NewClaimsNothing(s.claims, s.rows, row, m);
    BirthOffsets(after, m, OffsetsOf(after, home.partition), LogOf(after, home.partition));
  }

  lemma {:induction false} BirthRows(rows: seq<Row>, front: nat, m: Id, row: Row)
    requires (forall i :: 0 <= i < |rows| ==> rows[i].merchant != m) && row.merchant == m && front <= |rows|
    ensures RecordsOf(rows, m) == [] && RecordsOf(rows + [row], m) == [row.record]
    ensures RecordsOf((rows + [row])[..front], m) == []
  {
    NoSuchMerchant(rows, m);
    RecordsAppend(rows, row, m);
    assert (rows + [row])[..front] == rows[..front];
    NoSuchMerchant(rows[..front], m);
  }

  lemma {:induction false} BirthReads(s: System, m: Id, schema: string)
    requires Sound(s) && m !in s.homes && forall x :: x in s.homes ==> s.homes[x].schema != schema
    ensures OfKey(s.topic, m) == [] && HandledOf(s.handled, m) == []
    ensures Slice(s.db, m, schema) == ReadSide(None, None)
  {
    NoSuchKey(s.topic, m);
    NoneHandled(s.handled, m);
  }

  lemma {:induction false} NoneHandled(handled: seq<Entry>, m: Id)
    requires forall i :: 0 <= i < |handled| ==> handled[i].message.merchant != m
    ensures HandledOf(handled, m) == []
  {
    if handled != [] { NoneHandled(handled[..|handled| - 1], m); }
  }

  lemma {:induction false} BirthOffsets(s: System, m: Id, o: Offsets, log: seq<Keyed>)
    requires m in s.homes && log == LogOf(s, s.homes[m].partition) && OffsetsSound(o, |log|) && OfKey(s.topic, m) == []
    ensures Count(log, o.position, m) == Count(log, o.committed, m) == Count(log, o.reach, m) == 0
  {
    KeyOnPartition(s.topic, s.homes, m);
    CountMono(log, o.position, o.reach, m);
    CountMono(log, o.committed, o.reach, m);
  }

  lemma {:induction false} FrontBatch(rows: seq<Row>, batch: seq<nat>, front: nat)
    requires InCommitOrder(rows) && PublishedUpTo(rows, front) && IsBatch(rows, batch)
    ensures From(batch, front) && front + |batch| <= |rows|
  {
    PollTakesNext(rows, batch, front);
  }

  /** On a lane, what a run of the worker sends and marks. */
  lemma {:induction false} LanePoll(rows: seq<Row>, batch: seq<nat>, accepted: seq<bool>, front: nat, n: nat, m: Id)
    requires From(batch, front) && front + |batch| <= |rows| && |accepted| == |batch| && n <= |batch|
    ensures var flags, published := FlagsOf(rows, front, accepted[..n], m), |RecordsOf(rows[..front], m)|;
      && published + |flags| <= |RecordsOf(rows, m)|
      && published + |flags| == |RecordsOf(rows[..front + n], m)|
      && OfKey(Sent(rows, batch[..n], accepted[..n]), m) == SentOf(RecordsOf(rows, m), published, flags)
  {
    SendsOnLane(rows, batch[..n], accepted[..n], front, m);
    FlagsFit(rows, front, accepted[..n], m);
  }

  lemma {:induction false} SimPublishOffsets(s: System, sent: seq<Keyed>, k: nat, m: Id, l: Pipeline.Lane, after: Pipeline.Lane)
    requires SimOffsets(LogOf(s, k), OffsetsOf(s, k), m, l)
    requires after.position == l.position && after.committed == l.committed && after.reach == l.reach
    ensures SimOffsets(PartLog(s.topic + sent, s.homes, k), OffsetsOf(s, k), m, after)
  {
    var log, more, o := LogOf(s, k), PartLog(sent, s.homes, k), OffsetsOf(s, k);
    PartConcat(s.topic, sent, s.homes, k);
    CountGrows(log, more, o.position, m);
    CountGrows(log, more, o.committed, m);
    CountGrows(log, more, o.reach, m);
  }

  lemma {:induction false} SimMarks(rows: seq<Row>, after: seq<Row>, batch: seq<nat>, front: nat, n: nat, m: Id)
    requires after == rows || after == Marked(rows, batch)
    requires front + n <= |rows|
    ensures |after| == |rows| && RecordsOf(after, m) == RecordsOf(rows, m)
    ensures RecordsOf(after[..front + n], m) == RecordsOf(rows[..front + n], m)
  {
    MarkedRecords(rows, batch);
    SameRecords(rows[..front + n], after[..front + n], m);
  }

  lemma {:induction false} SimCoreAt(rows: seq<Row>, after: seq<Row>, front: nat, core: Core, m: Id, l: Pipeline.Lane)
    requires core.outbox == RecordsOf(rows, m) && RecordsOf(after, m) == RecordsOf(rows, m) && front <= |rows| == |after|
    requires l.core == core && l.published == |RecordsOf(rows[..front], m)|
    requires RecordsOf(after[..front], m) == RecordsOf(rows[..front], m)
    ensures SimCore(after, front, core, m, l)
  {
  }

  lemma {:induction false} SimPublishCore(rows: seq<Row>, front: nat, batch: seq<nat>, accepted: seq<bool>, n: nat, core: Core,
                                          m: Id, l: Pipeline.Lane, flags: seq<bool>)
    requires From(batch, front) && front + |batch| <= |rows| && |accepted| == |batch| && n <= |batch|
    requires SimCore(rows, front, core, m, l) && flags == FlagsOf(rows, front, accepted[..n], m)
    ensures l.published + |flags| <= |l.core.outbox|
    ensures SimCore(rows, front, core, m, Pipeline.PollNext(l, flags, false))
    ensures n == |batch| ==> SimCore(Marked(rows, batch), front + n, core, m, Pipeline.PollNext(l, flags, true))
  {
    LanePoll(rows, batch, accepted, front, n, m);
    SimCoreMoved(rows, front, core, m, l, Pipeline.PollNext(l, flags, false));
    SimMarks(rows, Marked(rows, batch), batch, front, n, m);
    SimCoreAt(rows, Marked(rows, batch), front + n, core, m, Pipeline.PollNext(l, flags, true));
  }

  lemma {:induction false} SimPublishReads(s: System, after: System, batch: seq<nat>, accepted: seq<bool>, n: nat,
                                           m: Id, l: Pipeline.Lane, marked: bool)
    requires From(batch, s.front) && s.front + |batch| <= |s.rows| && |accepted| == |batch| && n <= |batch|
    requires m in s.homes && SimReads(s, m, l) && l.core.outbox == RecordsOf(s.rows, m)
    requires s.front <= |s.rows| && l.published == |RecordsOf(s.rows[..s.front], m)|
    requires after.topic == s.topic + Sent(s.rows, batch[..n], accepted[..n])
    requires after.db == s.db && after.homes == s.homes && after.handled == s.handled && after.claims == s.claims
    requires after.rows == s.rows || after.rows == Marked(s.rows, batch)
    requires l.published + |FlagsOf(s.rows, s.front, accepted[..n], m)| <= |l.core.outbox|
    ensures SimReads(after, m, Pipeline.PollNext(l, FlagsOf(s.rows, s.front, accepted[..n], m), marked))
  {
    LanePoll(s.rows, batch, accepted, s.front, n, m);
    OfKeyConcat(s.topic, Sent(s.rows, batch[..n], accepted[..n]), m);
    MarkedRecords(s.rows, batch);
  }

  lemma {:induction false} SimPublish(s: System, batch: seq<nat>, accepted: seq<bool>, stop: Option<nat>, m: Id, l: Pipeline.Lane)
    requires RowsSound(s.rows, s.front, s.homes) && Sim(s, m, l) && Enabled(s, Publish(batch, accepted, stop))
    ensures Sim(AfterPublishing(s, batch, accepted, stop), m, Moved(l, LocalStep(s, Publish(batch, accepted, stop), m)))
  {
    FrontBatch(s.rows, batch, s.front);
    var n, after := Tried(batch, stop), AfterPublishing(s, batch, accepted, stop);
    var flags := FlagsOf(s.rows, s.front, accepted[..n], m);
    PublishedSystem(s, after, batch, accepted, stop, n, s.homes[m].partition);
    PublishStep(s, after, batch, accepted, stop == None, m, l, n, flags);
    PollStep(l, flags, stop == None);
  }

  /** What a run of the worker leaves, for one partition. */
  ghost predicate Publishes(s: System, after: System, batch: seq<nat>, accepted: seq<bool>, n: nat, k: nat, marked: bool)
    requires From(batch, s.front) && s.front + |batch| <= |s.rows| && |accepted| == |batch| && n <= |batch|
  {
    && (if marked then n == |batch| && after.rows == Marked(s.rows, batch) && after.front == s.front + n
        else after.rows == s.rows && after.front == s.front)
    && after.topic == s.topic + Sent(s.rows, batch[..n], accepted[..n])
    && after.cores == s.cores && after.homes == s.homes && after.db == s.db
    && after.claims == s.claims && after.handled == s.handled
    && OffsetsOf(after, k) == OffsetsOf(s, k)
    && LogOf(after, k) == PartLog(s.topic + Sent(s.rows, batch[..n], accepted[..n]), s.homes, k)
  }

  lemma {:induction false} PublishedCore(s: System, after: System, batch: seq<nat>, accepted: seq<bool>, n: nat, k: nat,
                                         marked: bool, m: Id, l: Pipeline.Lane, flags: seq<bool>)
    requires From(batch, s.front) && s.front + |batch| <= |s.rows| && |accepted| == |batch| && n <= |batch|
    requires Publishes(s, after, batch, accepted, n, k, marked) && flags == FlagsOf(s.rows, s.front, accepted[..n], m)
    requires m in s.cores && SimCore(s.rows, s.front, s.cores[m], m, l)
    ensures l.published + |flags| <= |l.core.outbox|
    ensures SimCore(after.rows, after.front, after.cores[m], m, Pipeline.PollNext(l, flags, marked))
  {
    SimPublishCore(s.rows, s.front, batch, accepted, n, s.cores[m], m, l, flags);
  }

  lemma {:induction false} PublishStep(s: System, after: System, batch: seq<nat>, accepted: seq<bool>, marked: bool, m: Id,
                                       l: Pipeline.Lane, n: nat, flags: seq<bool>)
    requires Sim(s, m, l) && From(batch, s.front) && s.front + |batch| <= |s.rows| && |accepted| == |batch| && n <= |batch|
    requires Publishes(s, after, batch, accepted, n, s.homes[m].partition, marked)
    requires flags == FlagsOf(s.rows, s.front, accepted[..n], m)
    ensures l.published + |flags| <= |l.core.outbox| && Sim(after, m, Pipeline.PollNext(l, flags, marked))
  {
    var k := s.homes[m].partition;
    PublishedCore(s, after, batch, accepted, n, k, marked, m, l, flags);
    SimPublishReads(s, after, batch, accepted, n, m, l, marked);
    SimPublishOffsets(s, Sent(s.rows, batch[..n], accepted[..n]), k, m, l, Pipeline.PollNext(l, flags, marked));
    SimHolds(after, m, Pipeline.PollNext(l, flags, marked));
  }

  lemma PollStep(l: Pipeline.Lane, flags: seq<bool>, marked: bool)
    requires l.published + |flags| <= |l.core.outbox|
    ensures Moved(l, Some(Pipeline.Poll(flags, marked))) == Pipeline.PollNext(l, flags, marked)
  {
  }

  lemma PublishedSystem(s: System, after: System, batch: seq<nat>, accepted: seq<bool>, stop: Option<nat>, n: nat, k: nat)
    requires From(batch, s.front) && s.front + |batch| <= |s.rows| && |accepted| == |batch| && n == Tried(batch, stop)
    requires after == AfterPublishing(s, batch, accepted, stop)
    ensures Publishes(s, after, batch, accepted, n, k, stop == None)
  {
  }

  // ---------- Reading ----------

  /** Where the position leads, counted in the messages of one merchant. */
  lemma {:induction false} CountAtPosition(log: seq<Keyed>, o: Offsets, m: Id, l: Pipeline.Lane)
    requires SimOffsets(log, o, m, l) && o.position < |log| && l.log == OfKey(log, m)
    ensures Count(log, o.position + 1, m) == l.position + (if log[o.position].key == m then 1 else 0)
    ensures log[o.position].key == m ==> l.position < |l.log| && l.log[l.position] == log[o.position].record
    ensures Count(log, Pipeline.Max(o.reach, o.position + 1), m) == Pipeline.Max(l.reach, Count(log, o.position + 1, m))
  {
    CountNext(log, o.position, m);
    if o.reach <= o.position + 1 { CountMono(log, o.reach, o.position + 1, m); }
    if o.position + 1 <= o.reach { CountMono(log, o.position + 1, o.reach, m); }
  }

  /** The lane's own message: the offsets move as the lane's do. */
  lemma {:induction false} OffsetsOwn(log: seq<Keyed>, o: Offsets, env: Env, ack: bool, m: Id, l: Pipeline.Lane, isNew: bool)
    requires SimOffsets(log, o, m, l) && o.position < |log| && l.log == OfKey(log, m) && log[o.position].key == m
    requires l.position < |l.log| ==> (isNew <==> l.log[l.position].id !in l.consumer.claims)
    ensures l.position < |l.log| && SimOffsets(log, OffsetsAfter(o, env, isNew, ack), m, Pipeline.ConsumeNext(l, env, ack))
  {
    CountAtPosition(log, o, m, l);
  }

  /** A message of another merchant: at most a rewind or an acknowledgement. */
  lemma {:induction false} OffsetsOther(log: seq<Keyed>, o: Offsets, env: Env, ack: bool, m: Id, l: Pipeline.Lane, isNew: bool,
                                        step: Option<Pipeline.Step>)
    requires SimOffsets(log, o, m, l) && o.position < |log| && l.log == OfKey(log, m) && log[o.position].key != m
    requires step == if env.CrashBeforeClaim? || (isNew && env.CrashInClaim?) then Some(Pipeline.Rewind(Count(log, o.committed, m)))
                     else if ack then Some(Pipeline.Acknowledge) else None
    ensures SimOffsets(log, OffsetsAfter(o, env, isNew, ack), m, Moved(l, step))
  {
    CountAtPosition(log, o, m, l);
  }

  lemma SettleKeeps(s: ReadSide, e: Event, f: Fate)
    ensures s.mirror.Some? ==> Settle(s, e, f).mirror.Some?
    ensures s.tables.Some? ==> Settle(s, e, f).tables.Some?
  {
  }

  /** A claim writes its own merchant's slice and no other. */
  lemma {:induction false} ClaimSlice(s: System, x: Message, f: Fate, m: Id)
    requires HomesSane(s.cores, s.homes) && RoutedHome(x, s.homes) && m in s.homes
    ensures var side := Slice(s.db, x.merchant, x.schema);
      Slice(Stored(s.db, x.merchant, x.schema, Settle(side, x.record.event, f)), m, s.homes[m].schema)
        == if x.merchant == m then Settle(side, x.record.event, f) else Slice(s.db, m, s.homes[m].schema)
  {
    var side := Slice(s.db, x.merchant, x.schema);
    SettleKeeps(side, x.record.event, f);
    StoredSlice(s.db, x.merchant, x.schema, Settle(side, x.record.event, f), m, s.homes[m].schema);
  }

  lemma {:induction false} HandledAppend(handled: seq<Entry>, e: Entry, m: Id)
    ensures HandledOf(handled + [e], m)
         == HandledOf(handled, m) + (if e.message.merchant == m then [Pipeline.Handled(e.message.record, e.fate)] else [])
  {
    assert (handled + [e])[..|handled|] == handled;
  }

  /** Claims, seen by one merchant. */
  lemma {:induction false} ClaimSeen(claims: set<Id>, rows: seq<Row>, r: Record, merchant: Id, m: Id, l: Pipeline.Lane,
                                     after: Pipeline.Lane)
    requires DistinctIds(rows) && r in RecordsOf(rows, merchant) && SimClaims(claims, RecordsOf(rows, m), l)
    requires after.consumer.claims == if merchant == m then l.consumer.claims + {r.id} else l.consumer.claims
    ensures SimClaims(claims + {r.id}, RecordsOf(rows, m), after)
  {
    MemberHasId(RecordsOf(rows, merchant), r);
    if merchant != m { OtherIds(rows, merchant, r, m); }
  }

  /** Claimed in the system means claimed on the lane. */
  lemma {:induction false} SameClaim(s: System, x: Message, m: Id, l: Pipeline.Lane)
    requires m in s.homes && SimReads(s, m, l) && x.merchant == m && x.record in RecordsOf(s.rows, m)
    ensures x.record.id in s.claims <==> x.record.id in l.consumer.claims
  {
    MemberHasId(RecordsOf(s.rows, m), x.record);
  }

  ghost predicate Readable(s: System, x: Message) {
    HomesSane(s.cores, s.homes) && DistinctIds(s.rows) && RoutedHome(x, s.homes) && x.record in RecordsOf(s.rows, x.merchant)
  }

  /** What a claim does to the slice, the claims and the history of the merchant it belongs to, */
  lemma {:induction false} SimClaimOwn(s: System, x: Message, env: Env, m: Id, l: Pipeline.Lane, after: Pipeline.Lane)
    requires Readable(s, x) && m in s.homes && SimReads(s, m, l) && x.merchant == m
    requires x.record.id !in l.consumer.claims && !env.CrashBeforeClaim?
    requires after.log == l.log && after.consumer == Process(l.consumer, Valid(x.record), env)
    requires after.handled == l.handled + [Pipeline.Handled(x.record, FateAt(s, x, env))]
    ensures SimReads(AfterClaim(s, x, env), m, after)
  {
    var f := FateAt(s, x, env);
    ClaimSlice(s, x, f, m);
    HandledAppend(s.handled, Entry(x, f), m);
    assert after.consumer.side == Settle(l.consumer.side, x.record.event, f);
    assert after.consumer.claims == l.consumer.claims + {x.record.id};
    ClaimSeen(s.claims, s.rows, x.record, m, m, l, after);
  }

  /** and to those of the others: nothing. */
  lemma {:induction false} SimClaimOther(s: System, x: Message, env: Env, m: Id, l: Pipeline.Lane)
    requires Readable(s, x) && m in s.homes && SimReads(s, m, l) && x.merchant != m
    ensures SimReads(AfterClaim(s, x, env), m, l)
  {
    var f := FateAt(s, x, env);
    ClaimSlice(s, x, f, m);
    HandledAppend(s.handled, Entry(x, f), m);
    assert HandledOf(s.handled, m) + [] == HandledOf(s.handled, m);
    ClaimSeen(s.claims, s.rows, x.record, x.merchant, m, l, l);
  }

  lemma SimReadsMoved(s: System, after: System, m: Id, l: Pipeline.Lane, moved: Pipeline.Lane)
    requires m in s.homes && SimReads(s, m, l)
    requires after.topic == s.topic && after.homes == s.homes && after.db == s.db && after.handled == s.handled
    requires after.claims == s.claims && after.rows == s.rows
    requires moved.log == l.log && moved.consumer == l.consumer && moved.handled == l.handled
    ensures SimReads(after, m, moved)
  {
  }

  /** A message that can be read belongs to a known merchant, lies on its partition, and is a row. */
  lemma {:induction false} MessageReadable(s: System, k: nat)
    requires Sound(s) && OffsetsOf(s, k).position < |LogOf(s, k)|
    ensures Readable(s, MessageAt(s, k)) && s.homes[MessageAt(s, k).merchant].partition == k
  {
    MessageSound(s, k);
  }

  lemma {:induction false} ReadOwnReads(s: System, x: Message, env: Env, ack: bool, m: Id, l: Pipeline.Lane, after: System)
    requires Readable(s, x) && m in s.homes && SimReads(s, m, l) && x.merchant == m
    requires l.position < |l.log| && l.log[l.position] == x.record
    requires after == if x.record.id !in s.claims && !env.CrashBeforeClaim? then AfterClaim(s, x, env) else s
    ensures SimReads(after, m, Pipeline.ConsumeNext(l, env, ack))
  {
    var moved := Pipeline.ConsumeNext(l, env, ack);
    SameClaim(s, x, m, l);
    if x.record.id !in s.claims && !env.CrashBeforeClaim? {
      SimClaimOwn(s, x, env, m, l, moved);
    } else {
      assert Process(l.consumer, Valid(x.record), env) == l.consumer;
      SimReadsMoved(s, s, m, l, moved);
    }
  }

  /** What reading leaves of the system: offsets of one partition, and perhaps a claim. */
  ghost predicate Reads(s: System, after: System, k: nat, env: Env, ack: bool) {
    && OffsetsOf(s, k).position < |LogOf(s, k)|
    && after == AfterReading(s, k, env, ack)
    && Readable(s, MessageAt(s, k))
  }

  lemma ReadingLeaves(s: System, after: System, k: nat, env: Env, ack: bool)
    requires Reads(s, after, k, env, ack)
    ensures after.cores == s.cores && after.homes == s.homes && after.rows == s.rows && after.front == s.front
    ensures after.topic == s.topic
    ensures forall j :: j != k ==> OffsetsOf(after, j) == OffsetsOf(s, j)
    ensures OffsetsOf(after, k) == OffsetsAfter(OffsetsOf(s, k), env, MessageAt(s, k).record.id !in s.claims, ack)
    ensures forall j :: LogOf(after, j) == LogOf(s, j)
  {
  }

  lemma {:induction false} ReadOwnOffsets(s: System, after: System, k: nat, env: Env, ack: bool, m: Id, l: Pipeline.Lane)
    requires Reads(s, after, k, env, ack) && m in s.homes && k == s.homes[m].partition && MessageAt(s, k).merchant == m
    requires SimOffsets(LogOf(s, k), OffsetsOf(s, k), m, l) && SimReads(s, m, l)
    ensures l.position < |l.log| && l.log[l.position] == MessageAt(s, k).record
    ensures SimOffsets(LogOf(after, k), OffsetsOf(after, k), m, Pipeline.ConsumeNext(l, env, ack))
  {
    KeyOnPartition(s.topic, s.homes, m);
    CountAtPosition(LogOf(s, k), OffsetsOf(s, k), m, l);
    SameClaim(s, MessageAt(s, k), m, l);
    OffsetsOwn(LogOf(s, k), OffsetsOf(s, k), env, ack, m, l, MessageAt(s, k).record.id !in s.claims);
    ReadingLeaves(s, after, k, env, ack);
  }

  lemma {:induction false} ReadOwnState(s: System, after: System, k: nat, env: Env, ack: bool, m: Id, l: Pipeline.Lane)
    requires Reads(s, after, k, env, ack) && m in s.homes && MessageAt(s, k).merchant == m && SimReads(s, m, l)
    requires l.position < |l.log| && l.log[l.position] == MessageAt(s, k).record
    ensures m in after.homes && SimReads(after, m, Pipeline.ConsumeNext(l, env, ack))
  {
    var x, moved := MessageAt(s, k), Pipeline.ConsumeNext(l, env, ack);
    var claimed := if x.record.id !in s.claims && !env.CrashBeforeClaim? then AfterClaim(s, x, env) else s;
    ReadOwnReads(s, x, env, ack, m, l, claimed);
    SimReadsMoved(claimed, after, m, moved, moved);
  }

  lemma SimCoreMoved(rows: seq<Row>, front: nat, core: Core, m: Id, l: Pipeline.Lane, moved: Pipeline.Lane)
    requires SimCore(rows, front, core, m, l) && moved.core == l.core && moved.published == l.published
    ensures SimCore(rows, front, core, m, moved)
  {
  }

  lemma SimHolds(s: System, m: Id, l: Pipeline.Lane)
    requires m in s.cores && m in s.homes && SimCore(s.rows, s.front, s.cores[m], m, l)
    requires SimOffsets(LogOf(s, s.homes[m].partition), OffsetsOf(s, s.homes[m].partition), m, l) && SimReads(s, m, l)
    ensures Sim(s, m, l)
  {
  }

  lemma {:induction false} SimReadOwn(s: System, after: System, k: nat, env: Env, ack: bool, m: Id, l: Pipeline.Lane)
    requires Sim(s, m, l) && Reads(s, after, k, env, ack) && MessageAt(s, k).merchant == m && k == s.homes[m].partition
    ensures l.position < |l.log| && Sim(after, m, Pipeline.ConsumeNext(l, env, ack))
  {
    ReadOwnOffsets(s, after, k, env, ack, m, l);
    ReadOwnState(s, after, k, env, ack, m, l);
    ReadingLeaves(s, after, k, env, ack);
    SimCoreMoved(s.rows, s.front, s.cores[m], m, l, Pipeline.ConsumeNext(l, env, ack));
    SimHolds(after, m, Pipeline.ConsumeNext(l, env, ack));
  }

  lemma {:induction false} ReadOtherOffsets(s: System, after: System, k: nat, env: Env, ack: bool, m: Id, l: Pipeline.Lane,
                                            step: Option<Pipeline.Step>)
    requires Reads(s, after, k, env, ack) && m in s.homes && k == s.homes[m].partition && MessageAt(s, k).merchant != m
    requires SimOffsets(LogOf(s, k), OffsetsOf(s, k), m, l) && l.log == OfKey(s.topic, m)
    requires step == LocalRead(s, k, env, ack, m)
    ensures SimOffsets(LogOf(after, k), OffsetsOf(after, k), m, Moved(l, step))
  {
    KeyOnPartition(s.topic, s.homes, m);
    OffsetsOther(LogOf(s, k), OffsetsOf(s, k), env, ack, m, l, MessageAt(s, k).record.id !in s.claims, step);
    ReadingLeaves(s, after, k, env, ack);
  }

  /** The steps that leave everything but the offsets. */
  predicate OnlyOffsets(step: Option<Pipeline.Step>) {
    step.None? || step.value.Rewind? || step.value.Acknowledge?
  }

  lemma OnlyOffsetsMove(l: Pipeline.Lane, step: Option<Pipeline.Step>)
    requires OnlyOffsets(step)
    ensures var moved := Moved(l, step);
      && moved.log == l.log && moved.consumer == l.consumer && moved.handled == l.handled
      && moved.core == l.core && moved.published == l.published
  {
  }

  lemma {:induction false} ReadOtherState(s: System, after: System, k: nat, env: Env, ack: bool, m: Id, l: Pipeline.Lane,
                                          moved: Pipeline.Lane)
    requires Reads(s, after, k, env, ack) && m in s.homes && MessageAt(s, k).merchant != m && SimReads(s, m, l)
    requires moved.log == l.log && moved.consumer == l.consumer && moved.handled == l.handled
    ensures m in after.homes && SimReads(after, m, moved)
  {
    var x := MessageAt(s, k);
    var claimed := if x.record.id !in s.claims && !env.CrashBeforeClaim? then AfterClaim(s, x, env) else s;
    SimClaimOther(s, x, env, m, l);
    SimReadsMoved(claimed, after, m, l, moved);
  }

  lemma {:induction false} SimReadOther(s: System, after: System, k: nat, env: Env, ack: bool, m: Id, l: Pipeline.Lane,
                                        step: Option<Pipeline.Step>)
    requires Sim(s, m, l) && Reads(s, after, k, env, ack) && MessageAt(s, k).merchant != m
    requires step == if k == s.homes[m].partition then LocalRead(s, k, env, ack, m) else None
    ensures Sim(after, m, Moved(l, step))
  {
    OnlyOffsetsMove(l, step);
    ReadOtherState(s, after, k, env, ack, m, l, Moved(l, step));
    ReadingLeaves(s, after, k, env, ack);
    SimCoreMoved(s.rows, s.front, s.cores[m], m, l, Moved(l, step));
    if k == s.homes[m].partition { ReadOtherOffsets(s, after, k, env, ack, m, l, step); }
    SimHolds(after, m, Moved(l, step));
  }

  lemma {:induction false} SimRead(s: System, after: System, k: nat, env: Env, ack: bool, m: Id, l: Pipeline.Lane,
                                   step: Option<Pipeline.Step>)
    requires Sim(s, m, l) && Reads(s, after, k, env, ack)
    requires MessageAt(s, k).merchant == m ==> k == s.homes[m].partition
    requires step == if k == s.homes[m].partition then LocalRead(s, k, env, ack, m) else None
    ensures Sim(after, m, Moved(l, step))
  {
    if MessageAt(s, k).merchant == m {
      SimReadOwn(s, after, k, env, ack, m, l);
      OwnStep(l, env, ack);
    } else {
      SimReadOther(s, after, k, env, ack, m, l, step);
    }
  }

  lemma OwnStep(l: Pipeline.Lane, env: Env, ack: bool)
    requires l.position < |l.log|
    ensures Moved(l, Some(Pipeline.Consume(env, ack))) == Pipeline.ConsumeNext(l, env, ack)
  {
  }

  lemma {:induction false} SimReset(s: System, k: nat, to: nat, m: Id, l: Pipeline.Lane)
    requires AllOffsetsSound(s) && Sim(s, m, l) && to <= OffsetsOf(s, k).committed
    ensures Sim(s.(offsets := s.offsets[k := OffsetsOf(s, k).(position := to)]), m, Moved(l, LocalStep(s, Reset(k, to), m)))
  {
    var after, step := s.(offsets := s.offsets[k := OffsetsOf(s, k).(position := to)]), LocalStep(s, Reset(k, to), m);
    assert OffsetsSound(OffsetsOf(s, k), |LogOf(s, k)|);
    if k == s.homes[m].partition { CountMono(LogOf(s, k), to, OffsetsOf(s, k).committed, m); }
    OnlyOffsetsMove(l, step);
    SimCoreMoved(s.rows, s.front, s.cores[m], m, l, Moved(l, step));
    SimReadsMoved(s, after, m, l, Moved(l, step));
    ResetOffsets(s, after, k, to, m, l, step);
    SimHolds(after, m, Moved(l, step));
  }

  lemma {:induction false} ResetOffsets(s: System, after: System, k: nat, to: nat, m: Id, l: Pipeline.Lane, step: Option<Pipeline.Step>)
    requires m in s.homes && to <= OffsetsOf(s, k).committed <= |LogOf(s, k)|
    requires after == s.(offsets := s.offsets[k := OffsetsOf(s, k).(position := to)])
    requires var j := s.homes[m].partition; SimOffsets(LogOf(s, j), OffsetsOf(s, j), m, l)
    requires k == s.homes[m].partition ==> Count(LogOf(s, k), to, m) <= l.committed
    requires step == if k == s.homes[m].partition then Some(Pipeline.Rewind(Count(LogOf(s, k), to, m))) else None
    ensures var j := s.homes[m].partition; SimOffsets(LogOf(after, j), OffsetsOf(after, j), m, Moved(l, step))
  {
  }

  /** Every action of the shared system is, on each lane, one step of that lane or none. */
  lemma {:induction false} ActionSimulates(s: System, a: Action, m: Id, l: Pipeline.Lane)
    requires Sound(s) && Sim(s, m, l)
    ensures Sim(Next(s, a), m, Moved(l, LocalStep(s, a, m)))
  {
    if Enabled(s, a) {
      match a
      case Create(x, profile, home, eventId, now) => SimCreate(s, x, profile, home, eventId, now, m, l);
      case Transact(merchant, tx) => SimTransact(s, merchant, tx, m, l);
      case Publish(batch, accepted, stop) => SimPublish(s, batch, accepted, stop, m, l);
      case Read(k, env, ack) =>
        MessageReadable(s, k);
        SimRead(s, AfterReading(s, k, env, ack), k, env, ack, m, l, LocalStep(s, a, m));
      case Reset(k, to) => SimReset(s, k, to, m, l);
    }
  }
}
