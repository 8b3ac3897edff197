/** The read database of all merchants: the order between different merchants does not matter. */
module Interleaving {
  import opened Domain
  import opened ReadTables
  import opened Replay

  /** One mirror row per merchant id, one schema of tables per schema name. */
  datatype Database = Database(merchants: map<Id, Profile>, schemas: map<string, Tables>)

  /** Each message names the merchant and the schema it is for. */
  datatype Message = Message(merchant: Id, schema: string, record: Record)

  const EMPTY := Database(map[], map[])

  /** The part of the database that the handlers of one message can see. */
  function Slice(db: Database, m: Id, schema: string): ReadSide {
    ReadSide(if m in db.merchants then Some(db.merchants[m]) else None,
             if schema in db.schemas then Some(db.schemas[schema]) else None)
  }

  /** Writes that part back. */
  function Stored(db: Database, m: Id, schema: string, after: ReadSide): Database {
    Database(if after.mirror.Some? then db.merchants[m := after.mirror.value] else db.merchants,
             if after.tables.Some? then db.schemas[schema := after.tables.value] else db.schemas)
  }

  function Deliver(db: Database, x: Message): Database {
    Stored(db, x.merchant, x.schema, Handle(Slice(db, x.merchant, x.schema), x.record.event))
  }

  function DeliverAll(messages: seq<Message>): Database {
    if messages == [] then EMPTY else Deliver(DeliverAll(messages[..|messages| - 1]), messages[|messages| - 1])
  }

  /** Rows and schemas are never taken away. */
  lemma HandleKeeps(s: ReadSide, e: Event)
    ensures s.mirror.Some? ==> Handle(s, e).mirror.Some?
    ensures s.tables.Some? ==> Handle(s, e).tables.Some?
  {
  }

  /** Writing one slice leaves the slices of other merchants alone. */
  lemma StoredSlice(db: Database, m: Id, schema: string, after: ReadSide, other: Id, otherSchema: string)
    requires Slice(db, m, schema).mirror.Some? ==> after.mirror.Some?
    requires Slice(db, m, schema).tables.Some? ==> after.tables.Some?
    requires m == other <==> schema == otherSchema
    ensures Slice(Stored(db, m, schema, after), other, otherSchema) == if m == other then after else Slice(db, other, otherSchema)
  {
  }

  lemma DeliverSlice(db: Database, x: Message, m: Id, schema: string)
    requires x.merchant == m <==> x.schema == schema
    ensures Slice(Deliver(db, x), m, schema)
         == if x.merchant == m then Handle(Slice(db, m, schema), x.record.event) else Slice(db, m, schema)
  {
    var s := Slice(db, x.merchant, x.schema);
    HandleKeeps(s, x.record.event);
    StoredSlice(db, x.merchant, x.schema, Handle(s, x.record.event), m, schema);
  }

  // ---------- Handlers for different merchants commute ----------

  ghost predicate Commute(m1: Id, schema1: string, m2: Id, schema2: string) {
    forall db, r1, r2 ::
      Deliver(Deliver(db, Message(m1, schema1, r1)), Message(m2, schema2, r2))
        == Deliver(Deliver(db, Message(m2, schema2, r2)), Message(m1, schema1, r1))
  }

  lemma SlicesApart(db: Database, x: Message, y: Message)
    requires x.merchant != y.merchant && x.schema != y.schema
    ensures Deliver(Deliver(db, x), y) == Deliver(Deliver(db, y), x)
  {
    DeliverSlice(db, x, y.merchant, y.schema);
    DeliverSlice(db, y, x.merchant, x.schema);
  }

  /** The customer row ends up with the name of the last message. */
  lemma LastNameStays(db: Database, x: Message, row: Customer)
    requires x.schema in db.schemas && Fits(db.schemas[x.schema]) && x.record.event == CustomerCreated(1, row)
    ensures var d := Deliver(db, x);
      && x.schema in d.schemas && Fits(d.schemas[x.schema])
      && 1 in d.schemas[x.schema].customers && d.schemas[x.schema].customers[1].name == row.name
  {
  }

  lemma LastOfTwo(db: Database, x: Message, y: Message, a: Customer, b: Customer)
    requires x.schema == y.schema && x.schema in db.schemas && Fits(db.schemas[x.schema])
    requires x.record.event == CustomerCreated(1, a) && y.record.event == CustomerCreated(1, b)
    ensures var d := Deliver(Deliver(db, x), y);
      y.schema in d.schemas && 1 in d.schemas[y.schema].customers && d.schemas[y.schema].customers[1].name == b.name
  {
    LastNameStays(db, x, a);
    LastNameStays(Deliver(db, x), y, b);
  }

  /** Two new customers with one id, in a schema that two merchants share. */
  lemma SharedSchemaConflicts(m1: Id, m2: Id, schema: string)
    ensures !Commute(m1, schema, m2, schema)
  {
    var db, a, b := Database(map[], map[schema := NO_TABLES]), Customer("a", None), Customer("b", None);
    var r1, r2 := Record(1, CustomerCreated(1, a), 1), Record(2, CustomerCreated(1, b), 2);
    LastOfTwo(db, Message(m1, schema, r1), Message(m2, schema, r2), a, b);
    LastOfTwo(db, Message(m2, schema, r2), Message(m1, schema, r1), b, a);
  }

  /** So handlers of two merchants commute exactly if the merchants have schemas of their own. */
  lemma CommuteIffApart(m1: Id, schema1: string, m2: Id, schema2: string)
    requires m1 != m2
    ensures Commute(m1, schema1, m2, schema2) <==> schema1 != schema2
  {
    if schema1 != schema2 {
      forall db, r1, r2 ensures
        Deliver(Deliver(db, Message(m1, schema1, r1)), Message(m2, schema2, r2))
          == Deliver(Deliver(db, Message(m2, schema2, r2)), Message(m1, schema1, r1))
      {
        SlicesApart(db, Message(m1, schema1, r1), Message(m2, schema2, r2));
      }
    } else {
      SharedSchemaConflicts(m1, m2, schema1);
    }
  }

  // ---------- Any merge gives the same database ----------

  function EventsOf(messages: seq<Message>, m: Id): seq<Record> {
    if messages == [] then []
    else
      var last := messages[|messages| - 1];
      EventsOf(messages[..|messages| - 1], m) + (if last.merchant == m then [last.record] else [])
  }

  /** Every merchant has a schema name, and no two have the same. */
  ghost predicate Routed(messages: seq<Message>, names: map<Id, string>) {
    && (forall m, n :: m in names && n in names && names[m] == names[n] ==> m == n)
    && (forall i :: 0 <= i < |messages| ==>
          messages[i].merchant in names && messages[i].schema == names[messages[i].merchant])
  }

  /** Each merchant's slice is the replay of its own events, whatever came in between. */
  lemma {:induction false} SliceIsReplay(messages: seq<Message>, names: map<Id, string>, m: Id)
    requires Routed(messages, names) && m in names
    ensures Slice(DeliverAll(messages), m, names[m]) == Replayed(EventsOf(messages, m))
  {
    if messages != [] {
      var before, last := messages[..|messages| - 1], messages[|messages| - 1];
      SliceIsReplay(before, names, m);
      DeliverSlice(DeliverAll(before), last, m, names[m]);
      var es := EventsOf(messages, m);
      if last.merchant == m { assert es[..|es| - 1] == EventsOf(before, m); } else { assert es == EventsOf(before, m); }
    }
  }

  lemma {:induction false} NothingElse(messages: seq<Message>, names: map<Id, string>)
    requires Routed(messages, names)
    ensures DeliverAll(messages).merchants.Keys <= names.Keys && DeliverAll(messages).schemas.Keys <= names.Values
  {
    if messages != [] { NothingElse(messages[..|messages| - 1], names); }
  }

  /** Two interleavings of the same per-merchant sequences leave the same read database. */
  lemma {:induction false} AnyMergeAgrees(a: seq<Message>, b: seq<Message>, names: map<Id, string>)
    requires Routed(a, names) && Routed(b, names)
    requires forall m :: EventsOf(a, m) == EventsOf(b, m)
    ensures DeliverAll(a) == DeliverAll(b)
  {
    var d1, d2 := DeliverAll(a), DeliverAll(b);
    NothingElse(a, names);
    NothingElse(b, names);
    forall m | m in names ensures Slice(d1, m, names[m]) == Slice(d2, m, names[m]) {
      SliceIsReplay(a, names, m);
      SliceIsReplay(b, names, m);
    }
    MerchantsEqual(d1, d2, names);
    SchemasEqual(d1, d2, names);
  }

  lemma MerchantsEqual(d1: Database, d2: Database, names: map<Id, string>)
    requires d1.merchants.Keys <= names.Keys && d2.merchants.Keys <= names.Keys
    requires forall m :: m in names ==> Slice(d1, m, names[m]) == Slice(d2, m, names[m])
    ensures d1.merchants == d2.merchants
  {
    forall m | m in names
      ensures (m in d1.merchants <==> m in d2.merchants) && (m in d1.merchants ==> d1.merchants[m] == d2.merchants[m])
    {
      assert Slice(d1, m, names[m]).mirror == Slice(d2, m, names[m]).mirror;
    }
  }

  lemma SchemasEqual(d1: Database, d2: Database, names: map<Id, string>)
    requires d1.schemas.Keys <= names.Values && d2.schemas.Keys <= names.Values
    requires forall m :: m in names ==> Slice(d1, m, names[m]) == Slice(d2, m, names[m])
    ensures d1.schemas == d2.schemas
  {
    forall s | s in names.Values
      ensures (s in d1.schemas <==> s in d2.schemas) && (s in d1.schemas ==> d1.schemas[s] == d2.schemas[s])
    {
      var m :| m in names && names[m] == s;
      assert Slice(d1, m, s).tables == Slice(d2, m, s).tables;
    }
  }

  function Only(messages: seq<Message>, m: Id): seq<Message> {
    if messages == [] then []
    else
      var last := messages[|messages| - 1];
      Only(messages[..|messages| - 1], m) + (if last.merchant == m then [last] else [])
  }

  /** All events of the first merchant, then all of the second, and so on. */
  function OneByOne(messages: seq<Message>, merchants: seq<Id>): seq<Message> {
    if merchants == [] then []
    else OneByOne(messages, merchants[..|merchants| - 1]) + Only(messages, merchants[|merchants| - 1])
  }

  lemma {:induction false} EventsConcat(a: seq<Message>, b: seq<Message>, m: Id)
    ensures EventsOf(a + b, m) == EventsOf(a, m) + EventsOf(b, m)
  {
    if b == [] {
      assert a + b == a;
    } else {
      EventsConcat(a, b[..|b| - 1], m);
      assert (a + b)[..|a + b| - 1] == a + b[..|b| - 1];
    }
  }

  lemma {:induction false} EventsOfOnly(messages: seq<Message>, m: Id, n: Id)
    ensures EventsOf(Only(messages, m), n) == if m == n then EventsOf(messages, n) else []
  {
    if messages != [] {
      var before, last := messages[..|messages| - 1], messages[|messages| - 1];
      EventsOfOnly(before, m, n);
      EventsConcat(Only(before, m), if last.merchant == m then [last] else [], n);
      SingleEvent(last, n);
    }
  }

  lemma {:induction false} SingleEvent(x: Message, n: Id)
    ensures EventsOf([x], n) == if x.merchant == n then [x.record] else []
  {
    assert [x][..0] == [];
  }

  lemma {:induction false} OneByOneKeepsEvents(messages: seq<Message>, merchants: seq<Id>, m: Id)
    requires forall i, j :: 0 <= i < j < |merchants| ==> merchants[i] != merchants[j]
    ensures EventsOf(OneByOne(messages, merchants), m) == if m in merchants then EventsOf(messages, m) else []
  {
    if merchants != [] {
      var before, last := merchants[..|merchants| - 1], merchants[|merchants| - 1];
      OneByOneKeepsEvents(messages, before, m);
      EventsConcat(OneByOne(messages, before), Only(messages, last), m);
      EventsOfOnly(messages, last, m);
      assert merchants == before + [last];
    }
  }

  lemma {:induction false} OnlyRouted(messages: seq<Message>, names: map<Id, string>, m: Id)
    requires Routed(messages, names)
    ensures Routed(Only(messages, m), names)
  {
    if messages != [] { OnlyRouted(messages[..|messages| - 1], names, m); }
  }

  lemma {:induction false} OneByOneRouted(messages: seq<Message>, names: map<Id, string>, merchants: seq<Id>)
    requires Routed(messages, names)
    ensures Routed(OneByOne(messages, merchants), names)
  {
    if merchants != [] {
      OneByOneRouted(messages, names, merchants[..|merchants| - 1]);
      OnlyRouted(messages, names, merchants[|merchants| - 1]);
    }
  }

  lemma {:induction false} NoMessagesNoEvents(messages: seq<Message>, m: Id)
    requires forall i :: 0 <= i < |messages| ==> messages[i].merchant != m
    ensures EventsOf(messages, m) == []
  {
    if messages != [] { NoMessagesNoEvents(messages[..|messages| - 1], m); }
  }

  /** The read database is the one that processing merchants one after another would give. */
  lemma {:induction false} MergeIsOneByOne(messages: seq<Message>, names: map<Id, string>, merchants: seq<Id>)
    requires Routed(messages, names)
    requires forall i, j :: 0 <= i < j < |merchants| ==> merchants[i] != merchants[j]
    requires forall i :: 0 <= i < |messages| ==> messages[i].merchant in merchants
    ensures DeliverAll(messages) == DeliverAll(OneByOne(messages, merchants))
  {
    forall m ensures EventsOf(messages, m) == EventsOf(OneByOne(messages, merchants), m) {
      OneByOneKeepsEvents(messages, merchants, m);
      if m !in merchants { NoMessagesNoEvents(messages, m); }
    }
    OneByOneRouted(messages, names, merchants);
    AnyMergeAgrees(messages, OneByOne(messages, merchants), names);
  }
}
