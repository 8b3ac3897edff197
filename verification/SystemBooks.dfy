/** What every run of the shared system keeps: rows in commit order, messages that are rows, sound offsets. */
module SystemBooks {
  import opened Domain
  import opened CoreTables
  import opened CoreInvariants
  import opened ReadTables
  import opened SyncConsumer
  import opened Outbox
  import opened Interleaving
  import opened SharedSystem

  lemma AppendRow(rows: seq<Row>, front: nat, homes: map<Id, Home>, row: Row)
    requires RowsSound(rows, front, homes) && row.merchant in homes && !row.published
    requires NewRow(rows, row.record.id, row.record.createdAt)
    ensures RowsSound(rows + [row], front, homes)
  {
    var after := rows + [row];
    assert forall i :: 0 <= i < |rows| ==> TimeAt(after, i) == TimeAt(rows, i);
    assert TimeAt(after, |rows|) == row.record.createdAt;
  }

  lemma RowsSoundIn(rows: seq<Row>, front: nat, homes: map<Id, Home>, m: Id, home: Home)
    requires RowsSound(rows, front, homes)
    ensures RowsSound(rows, front, homes[m := home])
  {
  }

  lemma {:induction false} TopicSoundLater(topic: seq<Keyed>, rows: seq<Row>, homes: map<Id, Home>, row: Row)
    requires TopicSound(topic, rows, homes)
    ensures TopicSound(topic, rows + [row], homes)
  {
    forall i | 0 <= i < |topic| ensures topic[i].record in RecordsOf(rows + [row], topic[i].key) {
      RecordsAppend(rows, row, topic[i].key);
    }
  }

  lemma ClaimsSoundLater(claims: set<Id>, rows: seq<Row>, row: Row)
    requires ClaimsSound(claims, rows)
    ensures ClaimsSound(claims, rows + [row])
  {
    forall id | id in claims ensures exists i :: 0 <= i < |rows + [row]| && (rows + [row])[i].record.id == id {
      var i :| 0 <= i < |rows| && rows[i].record.id == id;
      assert (rows + [row])[i].record.id == id;
    }
  }

  lemma SoundIn(s: System, m: Id, home: Home)
    requires HandledSound(s.handled, s.homes) && DbSound(s.db, s.homes) && m !in s.homes
    ensures HandledSound(s.handled, s.homes[m := home]) && DbSound(s.db, s.homes[m := home])
  {
    var after := s.homes[m := home];
    forall n | n in s.db.schemas ensures exists x :: x in after && after[x].schema == n {
      var x :| x in s.homes && s.homes[x].schema == n;
      assert after[x].schema == n;
    }
  }

  lemma {:induction false} CreateSound(s: System, m: Id, profile: Profile, home: Home, eventId: Id, now: Time)
    requires Sound(s) && Enabled(s, Create(m, profile, home, eventId, now))
    ensures Sound(WithMerchant(s, m, profile, home, eventId, now))
  {
    var after := WithMerchant(s, m, profile, home, eventId, now);
    var row := after.rows[|s.rows|];
    RowsSoundIn(s.rows, s.front, s.homes, m, home);
    AppendRow(s.rows, s.front, after.homes, row);
    TopicSoundLater(s.topic, s.rows, s.homes, row);
    ClaimsSoundLater(s.claims, s.rows, row);
    SoundIn(s, m, home);
    forall k: nat ensures OffsetsSound(OffsetsOf(after, k), |LogOf(after, k)|) {
      NewHomeSamePartitions(s.topic, s.homes, m, home, k);
      assert OffsetsSound(OffsetsOf(s, k), |LogOf(s, k)|);
    }
  }

  /** The row that a transaction adds. */
  lemma {:induction false} TransactedRow(s: System, m: Id, tx: Tx) returns (row: Row)
    requires m in s.cores && Execute(s.cores[m], tx).Ok?
    ensures row.merchant == m && !row.published && row.record.id == tx.eventId && row.record.createdAt == tx.now
    ensures var d := Execute(s.cores[m], tx).core;
      && d.outbox == s.cores[m].outbox + [row.record]
      && AfterTransaction(s, m, tx) == s.(cores := s.cores[m := d], rows := s.rows + [row])
  {
    var d := Execute(s.cores[m], tx).core;
    OneEventEach(s.cores[m], tx, d);
    row := Row(m, d.outbox[|s.cores[m].outbox|], false);
  }

  lemma {:induction false} TransactSound(s: System, m: Id, tx: Tx)
    requires Sound(s) && Enabled(s, Transact(m, tx))
    ensures Sound(AfterTransaction(s, m, tx))
  {
    if Execute(s.cores[m], tx).Ok? {
      var row := TransactedRow(s, m, tx);
      AppendRow(s.rows, s.front, s.homes, row);
      TopicSoundLater(s.topic, s.rows, s.homes, row);
      ClaimsSoundLater(s.claims, s.rows, row);
      var after := AfterTransaction(s, m, tx);
      forall k: nat ensures OffsetsSound(OffsetsOf(after, k), |LogOf(after, k)|) {
        assert OffsetsSound(OffsetsOf(s, k), |LogOf(s, k)|);
      }
    }
  }

  lemma {:induction false} SentSound(rows: seq<Row>, batch: seq<nat>, accepted: seq<bool>, homes: map<Id, Home>)
    requires |accepted| == |batch| && forall i :: 0 <= i < |batch| ==> batch[i] < |rows|
    requires forall i :: 0 <= i < |rows| ==> rows[i].merchant in homes
    ensures TopicSound(Sent(rows, batch, accepted), rows, homes)
  {
    var sent := Sent(rows, batch, accepted);
    forall i | 0 <= i < |sent| ensures sent[i].key in homes && sent[i].record in RecordsOf(rows, sent[i].key) {
      SentOnlyAccepted(rows, batch, accepted, sent[i]);
      var j :| 0 <= j < |batch| && accepted[j] && sent[i] == Keyed(rows[batch[j]].merchant, rows[batch[j]].record);
      RowHasRecord(rows, batch[j]);
    }
  }

  lemma {:induction false} MarkedRecords(rows: seq<Row>, batch: seq<nat>)
    ensures |Marked(rows, batch)| == |rows|
    ensures forall i :: 0 <= i < |rows| ==>
      Marked(rows, batch)[i].merchant == rows[i].merchant && Marked(rows, batch)[i].record == rows[i].record
    ensures forall m :: RecordsOf(Marked(rows, batch), m) == RecordsOf(rows, m)
  {
    forall m ensures RecordsOf(Marked(rows, batch), m) == RecordsOf(rows, m) {
      SameRecords(rows, Marked(rows, batch), m);
    }
  }

  lemma {:induction false} TopicJoins(a: seq<Keyed>, b: seq<Keyed>, rows: seq<Row>, homes: map<Id, Home>)
    requires TopicSound(a, rows, homes) && TopicSound(b, rows, homes)
    ensures TopicSound(a + b, rows, homes)
  {
  }

  lemma {:induction false} TopicSoundFor(topic: seq<Keyed>, rows: seq<Row>, after: seq<Row>, homes: map<Id, Home>)
    requires TopicSound(topic, rows, homes) && forall m :: RecordsOf(after, m) == RecordsOf(rows, m)
    ensures TopicSound(topic, after, homes)
  {
  }

  lemma ClaimsSoundFor(claims: set<Id>, rows: seq<Row>, after: seq<Row>)
    requires ClaimsSound(claims, rows) && |after| == |rows|
    requires forall i :: 0 <= i < |rows| ==> after[i].record == rows[i].record
    ensures ClaimsSound(claims, after)
  {
    forall id | id in claims ensures exists i :: 0 <= i < |after| && after[i].record.id == id {
      var i :| 0 <= i < |rows| && rows[i].record.id == id;
      assert after[i].record.id == id;
    }
  }

  lemma {:induction false} MarksSound(rows: seq<Row>, batch: seq<nat>, front: nat, homes: map<Id, Home>)
    requires RowsSound(rows, front, homes) && IsBatch(rows, batch)
    ensures RowsSound(Marked(rows, batch), front + |batch|, homes)
  {
    PollTakesNext(rows, batch, front);
    MarkedRecords(rows, batch);
    var after := Marked(rows, batch);
    assert forall i :: 0 <= i < |after| ==> TimeAt(after, i) == TimeAt(rows, i);
  }

  lemma {:induction false} PublishKeepsOffsets(s: System, after: System, sent: seq<Keyed>)
    requires AllOffsetsSound(s) && after.topic == s.topic + sent && after.homes == s.homes && after.offsets == s.offsets
    ensures AllOffsetsSound(after)
  {
    forall k: nat ensures OffsetsSound(OffsetsOf(after, k), |LogOf(after, k)|) {
      PartConcat(s.topic, sent, s.homes, k);
      assert OffsetsSound(OffsetsOf(s, k), |LogOf(s, k)|);
    }
  }

  lemma {:induction false} PublishSound(s: System, batch: seq<nat>, accepted: seq<bool>, stop: Option<nat>)
    requires Sound(s) && Enabled(s, Publish(batch, accepted, stop))
    ensures Sound(AfterPublishing(s, batch, accepted, stop))
  {
    var after, n := AfterPublishing(s, batch, accepted, stop), Tried(batch, stop);
    var sent := Sent(s.rows, batch[..n], accepted[..n]);
    SentSound(s.rows, batch[..n], accepted[..n], s.homes);
    TopicJoins(s.topic, sent, s.rows, s.homes);
    MarkedRecords(s.rows, batch);
    MarksSound(s.rows, batch, s.front, s.homes);
    if stop == None {
      TopicSoundFor(after.topic, s.rows, after.rows, s.homes);
      ClaimsSoundFor(s.claims, s.rows, after.rows);
    }
    PublishKeepsOffsets(s, after, sent);
  }

  /** A message that can be read belongs to a known merchant, lies on its partition, and is a row. */
  lemma {:induction false} MessageSound(s: System, k: nat)
    requires HomesSane(s.cores, s.homes) && TopicSound(s.topic, s.rows, s.homes)
    requires OffsetsOf(s, k).position < |LogOf(s, k)|
    ensures var x := MessageAt(s, k);
      && RoutedHome(x, s.homes) && s.homes[x.merchant].partition == k && x.record in RecordsOf(s.rows, x.merchant)
  {
    OnPartition(s.topic, s.homes, k);
  }

  lemma {:induction false} ReadKeepsOffsets(s: System, k: nat, env: Env, ack: bool)
    requires AllOffsetsSound(s) && OffsetsOf(s, k).position < |LogOf(s, k)|
    ensures AllOffsetsSound(AfterReading(s, k, env, ack))
  {
    var after := AfterReading(s, k, env, ack);
    forall j: nat ensures OffsetsSound(OffsetsOf(after, j), |LogOf(after, j)|) {
      assert LogOf(after, j) == LogOf(s, j);
      assert OffsetsSound(OffsetsOf(s, j), |LogOf(s, j)|);
    }
  }

  lemma {:induction false} ClaimSound(s: System, x: Message, env: Env)
    requires ClaimsSound(s.claims, s.rows) && HandledSound(s.handled, s.homes) && DbSound(s.db, s.homes)
    requires RoutedHome(x, s.homes) && x.record in RecordsOf(s.rows, x.merchant)
    ensures var after := AfterClaim(s, x, env);
      ClaimsSound(after.claims, s.rows) && HandledSound(after.handled, s.homes) && DbSound(after.db, s.homes)
  {
    var k := RecordHasRow(s.rows, x.merchant, x.record);
    assert s.rows[k].record.id == x.record.id;
    StoredSound(s.db, s.homes, x, Settle(Slice(s.db, x.merchant, x.schema), x.record.event, FateAt(s, x, env)));
  }

  lemma StoredSound(db: Database, homes: map<Id, Home>, x: Message, side: ReadSide)
    requires DbSound(db, homes) && RoutedHome(x, homes)
    ensures DbSound(Stored(db, x.merchant, x.schema, side), homes)
  {
    var after := Stored(db, x.merchant, x.schema, side);
    forall n | n in after.schemas ensures exists m :: m in homes && homes[m].schema == n {
      if n == x.schema {
        assert homes[x.merchant].schema == n;
      } else {
        assert n in db.schemas;
      }
    }
  }

  lemma {:induction false} ReadSound(s: System, k: nat, env: Env, ack: bool)
    requires Sound(s) && OffsetsOf(s, k).position < |LogOf(s, k)|
    ensures Sound(AfterReading(s, k, env, ack))
  {
    MessageSound(s, k);
    ReadKeepsOffsets(s, k, env, ack);
    ClaimSound(s, MessageAt(s, k), env);
  }

  lemma {:induction false} ResetSound(s: System, k: nat, to: nat)
    requires Sound(s) && Enabled(s, Reset(k, to))
    ensures Sound(Next(s, Reset(k, to)))
  {
    var after := Next(s, Reset(k, to));
    forall j: nat ensures OffsetsSound(OffsetsOf(after, j), |LogOf(after, j)|) {
      assert LogOf(after, j) == LogOf(s, j);
      assert OffsetsSound(OffsetsOf(s, j), |LogOf(s, j)|);
    }
  }

  lemma {:induction false} ActionSound(s: System, a: Action)
    requires Sound(s)
    ensures Sound(Next(s, a))
  {
    if Enabled(s, a) {
      match a
      case Create(m, profile, home, eventId, now) => CreateSound(s, m, profile, home, eventId, now);
      case Transact(m, tx) => TransactSound(s, m, tx);
      case Publish(batch, accepted, stop) => PublishSound(s, batch, accepted, stop);
      case Read(k, env, ack) => ReadSound(s, k, env, ack);
      case Reset(k, to) => ResetSound(s, k, to);
    }
  }
}
