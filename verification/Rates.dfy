/** What the stored success rate of a payment method is after any history, and when it is exact. */
module Rates {
  import opened Domain
  import opened Aggregates
  import opened CoreTables
  import opened CoreInvariants
  import opened ReadTables
  import opened Projection
  import opened Replay

  predicate Creates(e: Event, via: string) { e.PaymentEvent? && e.topic == OnCreated && e.payment.via == via }

  /** Captures and failures are the events that recompute the rate. */
  predicate Recomputes(e: Event, via: string) {
    e.PaymentEvent? && (e.topic == OnCaptured || e.topic == OnFailed) && e.payment.via == via
  }

  /** How many payments of the method were created. */
  function CreatedCount(records: seq<Record>, via: string): nat {
    if records == [] then 0
    else CreatedCount(records[..|records| - 1], via) + (if Creates(records[|records| - 1].event, via) then 1 else 0)
  }

  /** How many had been when one of them was last captured or failed; 0 if none was. */
  function CountAtOutcome(records: seq<Record>, via: string): nat {
    if records == [] then 0
    else if Recomputes(records[|records| - 1].event, via) then CreatedCount(records, via)
    else CountAtOutcome(records[..|records| - 1], via)
  }

  lemma {:induction false} OneMoreRecord(records: seq<Record>, r: Record, via: string)
    ensures CreatedCount(records + [r], via) == CreatedCount(records, via) + (if Creates(r.event, via) then 1 else 0)
    ensures CountAtOutcome(records + [r], via)
         == if Recomputes(r.event, via) then CreatedCount(records + [r], via) else CountAtOutcome(records, via)
  {
    assert (records + [r])[..|records|] == records;
  }

  function RateAt(success: int, n: nat): int { if n == 0 then 0 else Rate(success, n) }

  /** The method's row, in terms of the events it was built from. */
  predicate Tracks(methods: map<string, MethodStats>, via: string, created: nat, atOutcome: nat) {
    if via in methods then methods[via].count == created && methods[via].rate == RateAt(methods[via].success, atOutcome)
    else created == 0 && atOutcome == 0
  }

  lemma TracksNext(t: Tables, e: Event, via: string, created: nat, atOutcome: nat)
    requires Tracks(t.methods, via, created, atOutcome)
    ensures var now := created + (if Creates(e, via) then 1 else 0);
      Tracks(Apply(t, e).methods, via, now, if Recomputes(e, via) then now else atOutcome)
  {
  }

  ghost predicate Tracked(s: ReadSide, records: seq<Record>, via: string) {
    s.tables.Some? && Tracks(s.tables.value.methods, via, CreatedCount(records, via), CountAtOutcome(records, via))
  }

  lemma {:induction false} TrackedNext(s: ReadSide, records: seq<Record>, r: Record, via: string)
    requires Tracked(s, records, via) && !r.event.MerchantCreated? && Sync(Provision(s, r.event), r.event).Some?
    ensures Tracked(Handle(s, r.event), records + [r], via)
  {
    OneMoreRecord(records, r, via);
    TracksNext(s.tables.value, r.event, via, CreatedCount(records, via), CountAtOutcome(records, via));
    assert Handle(s, r.event).tables == Some(Apply(s.tables.value, r.event));
  }

  lemma {:induction false} TrackedCommit(s: ReadSide, c: Core, tx: Tx, d: Core, via: string)
    requires Good(c) && InStep(s, c) && s == Replayed(c.outbox) && Tracked(s, c.outbox, via) && Execute(c, tx) == Ok(d)
    ensures Tracked(Replayed(d.outbox), d.outbox, via)
  {
    OneEventEach(c, tx, d);
    HandleInStep(s, c, tx, d);
    var Does(d0, e) := EffectOf(c, tx.command, tx.now);
    MerchantEvents(c, tx.command, tx.now, d0, e);
    var r := d.outbox[|c.outbox|];
    TrackedNext(s, c.outbox, r, via);
    assert d.outbox == c.outbox + [r];
    assert Replayed(d.outbox) == Handle(s, r.event);
  }

  lemma {:induction false} EveryHistoryTracked(profile: Profile, eventId: Id, now: Time, history: seq<Tx>, via: string)
    ensures var c := Run(Genesis(profile, eventId, now), history); Tracked(Replayed(c.outbox), c.outbox, via)
  {
    var start := Genesis(profile, eventId, now);
    ReplayInStep(profile, eventId, now, history);
    if history == [] {
      assert start.outbox[..0] == [];
      assert Replayed(start.outbox) == ReadSide(Some(profile), Some(NO_TABLES));
    } else {
      var before, tx := history[..|history| - 1], history[|history| - 1];
      var c := Run(start, before);
      EveryHistoryTracked(profile, eventId, now, before, via);
      if Execute(c, tx).Ok? {
        GenesisIsGood(profile, eventId, now);
        ReachableIsGood(start, before);
        ReplayInStep(profile, eventId, now, before);
        TrackedCommit(Replayed(c.outbox), c, tx, Execute(c, tx).core, via);
      }
    }
  }

  /** A method's rows, its stored rate and its true rate after a history. */
  ghost predicate StoredRate(c: Core, s: ReadSide, via: string, stored: int) {
    && s.tables.Some? && via in s.tables.value.methods && s.tables.value.methods[via].rate == stored
    && Sum(c.payments, ByMethod(via), Count) > 0
  }

  ghost function TrueRate(c: Core, via: string): int
    requires Sum(c.payments, ByMethod(via), Count) > 0
  {
    Rate(Sum(c.payments, ByMethod(via), Success), Sum(c.payments, ByMethod(via), Count))
  }

  /** After any history the stored rate is today's successes over the number of payments at the last capture or
      failure of the method. */
  lemma {:induction false} StoredRateIs(profile: Profile, eventId: Id, now: Time, history: seq<Tx>, via: string)
    ensures var c := Run(Genesis(profile, eventId, now), history);
      && Replayed(c.outbox).tables.Some?
      && (via in Replayed(c.outbox).tables.value.methods ==>
           && StoredRate(c, Replayed(c.outbox), via,
                         RateAt(Sum(c.payments, ByMethod(via), Success), CountAtOutcome(c.outbox, via)))
           && CreatedCount(c.outbox, via) == Sum(c.payments, ByMethod(via), Count))
  {
    var c := Run(Genesis(profile, eventId, now), history);
    ReplayInStep(profile, eventId, now, history);
    EveryHistoryTracked(profile, eventId, now, history, via);
    var methods := Replayed(c.outbox).tables.value.methods;
    if via in methods { MethodRow(methods, c.payments, via); }
  }

  lemma MethodRow(methods: map<string, MethodStats>, payments: map<Id, Payment>, via: string)
    requires MethodsAgree(methods, payments) && via in methods
    ensures methods[via].success == Sum(payments, ByMethod(via), Success)
    ensures methods[via].count == Sum(payments, ByMethod(via), Count) > 0
  {
    assert MethodAgrees(methods[via], payments, via);
  }

  /** A payment's method has a row. */
  lemma {:induction false} KnownMethod(profile: Profile, eventId: Id, now: Time, history: seq<Tx>, p: Id)
    requires p in Run(Genesis(profile, eventId, now), history).payments
    ensures var c := Run(Genesis(profile, eventId, now), history);
      Replayed(c.outbox).tables.Some? && c.payments[p].via in Replayed(c.outbox).tables.value.methods
  {
    ReplayInStep(profile, eventId, now, history);
    var payments := Run(Genesis(profile, eventId, now), history).payments;
    assert InScope(ByMethod(payments[p].via), payments[p]);
  }

  // ---------- When it is exact ----------

  /** No payment of the method was created since one was last captured or failed. */
  predicate Level(c: Core, via: string) { CountAtOutcome(c.outbox, via) == CreatedCount(c.outbox, via) }

  predicate CreatesNone(tx: Tx, via: string) { tx.command.CreatePayment? ==> tx.command.via != via }

  lemma CreatedByCommand(c: Core, command: Command, now: Time, via: string)
    ensures var e := EffectOf(c, command, now);
      e.Does? && Creates(e.event, via) ==> command.CreatePayment? && command.via == via
  {
  }

  /** A transaction that creates no payment of the method keeps it so. */
  lemma {:induction false} StaysLevel(c: Core, tx: Tx, via: string)
    requires Level(c, via) && CreatesNone(tx, via)
    ensures Level(After(c, Execute(c, tx)), via)
  {
    if Execute(c, tx).Ok? {
      var d := Execute(c, tx).core;
      OneEventEach(c, tx, d);
      CreatedByCommand(c, tx.command, tx.now, via);
      OneMoreRecord(c.outbox, d.outbox[|c.outbox|], via);
      assert d.outbox == c.outbox + [d.outbox[|c.outbox|]];
    }
  }

  lemma {:induction false} RunOneMore(start: Core, history: seq<Tx>, more: seq<Tx>)
    requires more != []
    ensures var c, tx := Run(start, history + more[..|more| - 1]), more[|more| - 1];
      Run(start, history + more) == After(c, Execute(c, tx))
  {
    assert (history + more)[..|history + more| - 1] == history + more[..|more| - 1];
  }

  lemma {:induction false} StaysLevelFor(start: Core, history: seq<Tx>, more: seq<Tx>, via: string)
    requires Level(Run(start, history), via) && forall i :: 0 <= i < |more| ==> CreatesNone(more[i], via)
    ensures Level(Run(start, history + more), via)
  {
    if more == [] {
      assert history + more == history;
    } else {
      StaysLevelFor(start, history, more[..|more| - 1], via);
      RunOneMore(start, history, more);
      StaysLevel(Run(start, history + more[..|more| - 1]), more[|more| - 1], via);
    }
  }

  /** The transaction captures or fails a payment of the method. */
  ghost predicate IsOutcome(c: Core, tx: Tx, via: string) {
    && tx.command.TransitionPayment? && (tx.command.target == Captured || tx.command.target == Failed)
    && Execute(c, tx).Ok? && tx.command.paymentId in c.payments && c.payments[tx.command.paymentId].via == via
  }

  lemma PaymentStays(c: Core, tx: Tx, p: Id, via: string)
    requires p in c.payments && c.payments[p].via == via
    ensures var d := After(c, Execute(c, tx)); p in d.payments && d.payments[p].via == via
  {
  }

  lemma {:induction false} PaymentStaysFor(start: Core, history: seq<Tx>, more: seq<Tx>, p: Id, via: string)
    requires p in Run(start, history).payments && Run(start, history).payments[p].via == via
    ensures p in Run(start, history + more).payments && Run(start, history + more).payments[p].via == via
  {
    if more == [] {
      assert history + more == history;
    } else {
      PaymentStaysFor(start, history, more[..|more| - 1], p, via);
      RunOneMore(start, history, more);
      PaymentStays(Run(start, history + more[..|more| - 1]), more[|more| - 1], p, via);
    }
  }

  lemma {:induction false} OutcomeLevels(c: Core, tx: Tx, via: string)
    requires IsOutcome(c, tx, via)
    ensures Level(After(c, Execute(c, tx)), via)
  {
    var d := Execute(c, tx).core;
    OneEventEach(c, tx, d);
    var r := d.outbox[|c.outbox|];
    assert Recomputes(r.event, via);
    assert d.outbox == c.outbox + [r];
    OneMoreRecord(c.outbox, r, via);
  }

  /** From a capture or failure on, until the next payment of the method is created, the stored rate is exact. */
  lemma {:induction false} RateExactUntilNextPayment(profile: Profile, eventId: Id, now: Time, history: seq<Tx>, tx: Tx,
                                                     more: seq<Tx>, via: string)
    requires IsOutcome(Run(Genesis(profile, eventId, now), history), tx, via)
    requires forall i :: 0 <= i < |more| ==> CreatesNone(more[i], via)
    ensures var c := Run(Genesis(profile, eventId, now), history + [tx] + more);
      Sum(c.payments, ByMethod(via), Count) > 0 && StoredRate(c, Replayed(c.outbox), via, TrueRate(c, via))
  {
    var start, p := Genesis(profile, eventId, now), tx.command.paymentId;
    assert (history + [tx])[..|history|] == history;
    OutcomeLevels(Run(start, history), tx, via);
    StaysLevelFor(start, history + [tx], more, via);
    PaymentStays(Run(start, history), tx, p, via);
    PaymentStaysFor(start, history + [tx], more, p, via);
    KnownMethod(profile, eventId, now, history + [tx] + more, p);
    LevelIsExact(profile, eventId, now, history + [tx] + more, via);
  }

  lemma {:induction false} LevelIsExact(profile: Profile, eventId: Id, now: Time, history: seq<Tx>, via: string)
    requires Level(Run(Genesis(profile, eventId, now), history), via)
    ensures var c := Run(Genesis(profile, eventId, now), history);
      Replayed(c.outbox).tables.Some? && (via in Replayed(c.outbox).tables.value.methods ==>
        Sum(c.payments, ByMethod(via), Count) > 0 && StoredRate(c, Replayed(c.outbox), via, TrueRate(c, via)))
  {
    StoredRateIs(profile, eventId, now, history, via);
  }

  // ---------- What the number is ----------

  /** r hundredths of a percent are nearest to s out of n, and of two equally near the larger. */
  predicate Nearest(r: int, s: int, n: int) { -n < 2 * (n * r - 10_000 * s) <= n }

  lemma RateIsNearest(s: int, n: Positive)
    ensures Nearest(Rate(s, n), s, n)
  {
    var x, r := 20_000 * s + n, Rate(s, n);
    assert x == 2 * n * r + x % (2 * n);
    assert 2 * (n * r) == 2 * n * r;
  }

  /** No other number is. */
  lemma NearestIsUnique(r: int, q: int, s: int, n: Positive)
    requires Nearest(r, s, n) && Nearest(q, s, n)
    ensures r == q
  {
    var a, b := n * r, n * q;
    assert a - b == n * (r - q);
    if r > q { Multiple(n, r - q); } else if q > r { Multiple(n, q - r); }
  }

  lemma Multiple(n: Positive, k: Positive)
    ensures n <= n * k
  {
  }

  /** After any history the stored rate of a method is the nearest hundredth of a percent to its successes over
      the number of its payments at the last capture or failure; before the first it is 0. */
  lemma {:induction false} StoredRateIsNearest(profile: Profile, eventId: Id, now: Time, history: seq<Tx>, via: string)
    ensures var c := Run(Genesis(profile, eventId, now), history);
      && Replayed(c.outbox).tables.Some?
      && (via in Replayed(c.outbox).tables.value.methods ==>
           var stored, n := Replayed(c.outbox).tables.value.methods[via].rate, CountAtOutcome(c.outbox, via);
           if n == 0 then stored == 0 else Nearest(stored, Sum(c.payments, ByMethod(via), Success), n))
  {
    var c := Run(Genesis(profile, eventId, now), history);
    StoredRateIs(profile, eventId, now, history, via);
    var n := CountAtOutcome(c.outbox, via);
    if n > 0 { RateIsNearest(Sum(c.payments, ByMethod(via), Success), n); }
  }

  /** Right after a capture or failure, and until the next payment of the method, it is the nearest hundredth to
      the successes over the payments that there are. */
  lemma {:induction false} RateNearestUntilNextPayment(profile: Profile, eventId: Id, now: Time, history: seq<Tx>, tx: Tx,
                                                       more: seq<Tx>, via: string)
    requires IsOutcome(Run(Genesis(profile, eventId, now), history), tx, via)
    requires forall i :: 0 <= i < |more| ==> CreatesNone(more[i], via)
    ensures var c := Run(Genesis(profile, eventId, now), history + [tx] + more);
      && Replayed(c.outbox).tables.Some? && via in Replayed(c.outbox).tables.value.methods
      && 0 < Sum(c.payments, ByMethod(via), Count)
      && Nearest(Replayed(c.outbox).tables.value.methods[via].rate,
                 Sum(c.payments, ByMethod(via), Success), Sum(c.payments, ByMethod(via), Count))
  {
    RateExactUntilNextPayment(profile, eventId, now, history, tx, more, via);
    var c := Run(Genesis(profile, eventId, now), history + [tx] + more);
    RateIsNearest(Sum(c.payments, ByMethod(via), Success), Sum(c.payments, ByMethod(via), Count));
  }

  // ---------- A history after which it overstates ----------

  const CARD: seq<Command> := [CreateCustomer(7, "c", None), CreatePayment(8, 7, 100, "card"),
                               TransitionPayment(8, Authorized), TransitionPayment(8, Captured),
                               CreatePayment(9, 7, 100, "card")]

  function CardHistory(n: nat): seq<Tx>
    requires n <= 5
  {
    seq(n, i requires 0 <= i < n => Tx(CARD[i], i + 1, i + 1))
  }

  lemma {:induction false} CardStep(start: Core, n: nat)
    requires n < 5
    ensures var c := Run(start, CardHistory(n));
      Run(start, CardHistory(n + 1)) == After(c, Execute(c, Tx(CARD[n], n + 1, n + 1)))
  {
    var h := CardHistory(n + 1);
    assert h[..|h| - 1] == CardHistory(n);
  }

  function CardPayment(s: Status, created: Time, updated: Time): Payment { Payment(7, 100, s, "card", 0, created, updated) }

  ghost predicate Holding(c: Core, n: nat, payments: map<Id, Payment>, volume: Cents, created: nat, atOutcome: nat) {
    && 7 in c.customers && c.payments == payments && LedgerSum(c.ledger) == volume
    && (forall i :: 0 <= i < |c.outbox| ==> c.outbox[i].id <= n)
    && CreatedCount(c.outbox, "card") == created && CountAtOutcome(c.outbox, "card") == atOutcome
  }

  lemma {:induction false} CardCreated(c: Core, n: nat, p: Id, payments: map<Id, Payment>, volume: Cents, created: nat, atOutcome: nat)
    requires Holding(c, n, payments, volume, created, atOutcome) && p !in payments && volume + 100 <= MAX_CENTS
    ensures var d := After(c, Execute(c, Tx(CreatePayment(p, 7, 100, "card"), n + 1, n + 1)));
      Holding(d, n + 1, payments[p := CardPayment(Created, n + 1, n + 1)], volume + 100, created + 1, atOutcome)
  {
    var o := Execute(c, Tx(CreatePayment(p, 7, 100, "card"), n + 1, n + 1));
    LedgerAppend(c.ledger, o.core.ledger[|c.ledger|]);
    OneMoreRecord(c.outbox, o.core.outbox[|c.outbox|], "card");
  }

  /** What a transition of the payment does. */
  lemma CardTransition(c: Core, n: nat, p: Id, was: Status, target: Status, at: Time, updated: Time, entries: seq<LedgerEntry>)
    requires p in c.payments && c.payments[p] == CardPayment(was, at, updated) && target in Allowed(was)
    requires n + 1 !in Ids(c.outbox) && LedgerSum(c.ledger) <= MAX_CENTS
    requires entries == if target == Captured then [LedgerEntry(p, None, PaymentCapturedEntry, 100, LedgerSum(c.ledger))] else []
    ensures var row := CardPayment(target, at, n + 1);
      Execute(c, Tx(TransitionPayment(p, target), n + 1, n + 1))
        == Ok(c.(payments := c.payments[p := row], ledger := c.ledger + entries,
                 outbox := c.outbox + [Record(n + 1, PaymentEvent(TopicOf(target), p, row), n + 1)]))
  {
  }

  lemma {:induction false} CardMoved(c: Core, n: nat, p: Id, was: Status, target: Status, at: Time, updated: Time,
                                     payments: map<Id, Payment>, volume: Cents, created: nat, atOutcome: nat)
    requires Holding(c, n, payments, volume, created, atOutcome) && volume <= MAX_CENTS
    requires p in payments && payments[p] == CardPayment(was, at, updated) && target in Allowed(was) && target != Failed
    ensures var d := After(c, Execute(c, Tx(TransitionPayment(p, target), n + 1, n + 1)));
      Holding(d, n + 1, payments[p := CardPayment(target, at, n + 1)], if target == Captured then volume + 100 else volume,
              created, if target == Captured then created else atOutcome)
  {
    var row := CardPayment(target, at, n + 1);
    var entries := if target == Captured then [LedgerEntry(p, None, PaymentCapturedEntry, 100, volume)] else [];
    CardTransition(c, n, p, was, target, at, updated, entries);
    if target == Captured { LedgerAppend(c.ledger, entries[0]); } else { assert c.ledger + entries == c.ledger; }
    OneMoreRecord(c.outbox, Record(n + 1, PaymentEvent(TopicOf(target), p, row), n + 1), "card");
  }

  lemma {:induction false} CardOpened(profile: Profile)
    ensures Holding(Run(Genesis(profile, 0, 0), CardHistory(1)), 1, map[], 0, 0, 0)
  {
    var start := Genesis(profile, 0, 0);
    CardStep(start, 0);
    assert Run(start, CardHistory(0)) == start;
    OneMoreRecord([], start.outbox[0], "card");
    var d := Run(start, CardHistory(1));
    assert [] + [start.outbox[0]] == start.outbox;
    OneMoreRecord(start.outbox, d.outbox[1], "card");
  }

  predicate Follows(c: Core, d: Core, n: nat)
    requires n < 5
  {
    d == After(c, Execute(c, Tx(CARD[n], n + 1, n + 1)))
  }

  lemma {:induction false} CardAuthorized(c: Core, d: Core, payments: map<Id, Payment>, after: map<Id, Payment>)
    requires Follows(c, d, 2) && CARD[2] == TransitionPayment(8, Authorized) && Holding(c, 2, payments, 100, 1, 0)
    requires 8 in payments && payments[8] == CardPayment(Created, 2, 2) && after == payments[8 := CardPayment(Authorized, 2, 3)]
    ensures Holding(d, 3, after, 100, 1, 0)
  {
    CardMoved(c, 2, 8, Created, Authorized, 2, 2, payments, 100, 1, 0);
  }

  lemma {:induction false} CardCaptured(c: Core, d: Core, payments: map<Id, Payment>, after: map<Id, Payment>)
    requires Follows(c, d, 3) && CARD[3] == TransitionPayment(8, Captured) && Holding(c, 3, payments, 100, 1, 0)
    requires 8 in payments && payments[8] == CardPayment(Authorized, 2, 3) && after == payments[8 := CardPayment(Captured, 2, 4)]
    ensures Holding(d, 4, after, 200, 1, 1)
  {
    CardMoved(c, 3, 8, Authorized, Captured, 2, 3, payments, 100, 1, 0);
  }

  lemma {:induction false} CardAdded(c: Core, d: Core, payments: map<Id, Payment>, after: map<Id, Payment>)
    requires Follows(c, d, 1) && CARD[1] == CreatePayment(8, 7, 100, "card") && Holding(c, 1, payments, 0, 0, 0)
    requires 8 !in payments && after == payments[8 := CardPayment(Created, 2, 2)]
    ensures Holding(d, 2, after, 100, 1, 0)
  {
    CardCreated(c, 1, 8, payments, 0, 0, 0);
  }

  lemma {:induction false} CardAddedAgain(c: Core, d: Core, payments: map<Id, Payment>, after: map<Id, Payment>)
    requires Follows(c, d, 4) && CARD[4] == CreatePayment(9, 7, 100, "card") && Holding(c, 4, payments, 200, 1, 1)
    requires 9 !in payments && after == payments[9 := CardPayment(Created, 5, 5)]
    ensures Holding(d, 5, after, 300, 2, 1)
  {
    CardCreated(c, 4, 9, payments, 200, 1, 1);
  }

  /** The states after the first command and each that follows. */
  ghost predicate CardRun(cores: seq<Core>) {
    && |cores| == 5 && Holding(cores[0], 1, map[], 0, 0, 0)
    && forall n :: 1 <= n < 5 ==> Follows(cores[n - 1], cores[n], n)
  }

  lemma {:induction false} CardFirst(cores: seq<Core>, first: map<Id, Payment>, second: map<Id, Payment>)
    requires CardRun(cores) && first == map[8 := CardPayment(Created, 2, 2)] && second == map[8 := CardPayment(Authorized, 2, 3)]
    ensures Holding(cores[2], 3, second, 100, 1, 0)
  {
    assert Follows(cores[0], cores[1], 1) && Follows(cores[1], cores[2], 2);
    CardAdded(cores[0], cores[1], map[], first);
    CardAuthorized(cores[1], cores[2], first, second);
  }

  lemma {:induction false} CardLast(cores: seq<Core>, second: map<Id, Payment>, third: map<Id, Payment>)
    requires CardRun(cores) && Holding(cores[2], 3, second, 100, 1, 0)
    requires second == map[8 := CardPayment(Authorized, 2, 3)] && third == map[8 := CardPayment(Captured, 2, 4)]
    ensures Holding(cores[4], 5, third[9 := CardPayment(Created, 5, 5)], 300, 2, 1)
  {
    assert Follows(cores[2], cores[3], 3) && Follows(cores[3], cores[4], 4);
    CardCaptured(cores[2], cores[3], second, third);
    CardAddedAgain(cores[3], cores[4], third, third[9 := CardPayment(Created, 5, 5)]);
  }

  lemma {:induction false} CardEnd(profile: Profile, end: Core)
    requires end == Run(Genesis(profile, 0, 0), CardHistory(5))
    ensures Holding(end, 5, map[8 := CardPayment(Captured, 2, 4)][9 := CardPayment(Created, 5, 5)], 300, 2, 1)
  {
    var start := Genesis(profile, 0, 0);
    var cores := seq(5, i requires 0 <= i < 5 => Run(start, CardHistory(i + 1)));
    CardOpened(profile);
    forall n | 1 <= n < 5 ensures Follows(cores[n - 1], cores[n], n) { CardFollows(profile, cores[n - 1], cores[n], n); }
    var second: map<Id, Payment> := map[8 := CardPayment(Authorized, 2, 3)];
    CardFirst(cores, map[8 := CardPayment(Created, 2, 2)], second);
    CardLast(cores, second, map[8 := CardPayment(Captured, 2, 4)]);
  }

  lemma {:induction false} CardFollows(profile: Profile, c: Core, d: Core, n: nat)
    requires n < 5 && c == Run(Genesis(profile, 0, 0), CardHistory(n)) && d == Run(Genesis(profile, 0, 0), CardHistory(n + 1))
    ensures Follows(c, d, n)
  {
    CardStep(Genesis(profile, 0, 0), n);
  }

  /** One payment captured, another just created: the table says 100.00, the payments say 50.00. */
  lemma {:induction false} RateCanOverstate(profile: Profile)
    ensures var c := Run(Genesis(profile, 0, 0), CardHistory(5));
      StoredRate(c, Replayed(c.outbox), "card", 10_000) && TrueRate(c, "card") == 5_000
  {
    var end := Run(Genesis(profile, 0, 0), CardHistory(5));
    CardEnd(profile, end);
    CardRates(profile, CardHistory(5), end);
  }

  lemma RateValues(success: int, count: Positive, n: nat)
    requires success == 1 && count == 2 && n == 1
    ensures Rate(success, count) == 5_000 && RateAt(success, n) == 10_000
  {
  }

  lemma {:induction false} CardTrueRate(c: Core)
    requires Holding(c, 5, map[8 := CardPayment(Captured, 2, 4)][9 := CardPayment(Created, 5, 5)], 300, 2, 1)
    ensures Sum(c.payments, ByMethod("card"), Count) > 0 && TrueRate(c, "card") == 5_000
    ensures RateAt(Sum(c.payments, ByMethod("card"), Success), CountAtOutcome(c.outbox, "card")) == 10_000
  {
    CardSums(c.payments, CardPayment(Captured, 2, 4), CardPayment(Created, 5, 5));
    RateValues(Sum(c.payments, ByMethod("card"), Success), Sum(c.payments, ByMethod("card"), Count),
               CountAtOutcome(c.outbox, "card"));
  }

  lemma {:induction false} CardRates(profile: Profile, history: seq<Tx>, c: Core)
    requires c == Run(Genesis(profile, 0, 0), history)
    requires Holding(c, 5, map[8 := CardPayment(Captured, 2, 4)][9 := CardPayment(Created, 5, 5)], 300, 2, 1)
    ensures StoredRate(c, Replayed(c.outbox), "card", 10_000) && TrueRate(c, "card") == 5_000
  {
    CardTrueRate(c);
    StoredRateIs(profile, 0, 0, history, "card");
    KnownMethod(profile, 0, 0, history, 8);
  }

  lemma {:induction false} CardSums(payments: map<Id, Payment>, a: Payment, b: Payment)
    requires payments == map[8 := a][9 := b] && a.via == b.via == "card" && a.status == Captured && b.status == Created
    ensures Sum(payments, ByMethod("card"), Success) == 1 && Sum(payments, ByMethod("card"), Count) == 2
  {
    SumZero(map[], ByMethod("card"));
    SumWrite(map[], 8, a, ByMethod("card"), Success);
    SumWrite(map[], 8, a, ByMethod("card"), Count);
    SumWrite(map[8 := a], 9, b, ByMethod("card"), Success);
    SumWrite(map[8 := a], 9, b, ByMethod("card"), Count);
    assert map[][8 := a] == map[8 := a];
  }
}
