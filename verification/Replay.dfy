/** Folding the handlers over a whole outbox, and what then holds of the read tables. */
module Replay {
  import opened Domain
  import opened Sums
  import opened Aggregates
  import opened CoreTables
  import opened CoreInvariants
  import opened ReadTables
  import opened Projection

  const NOTHING := ReadSide(None, None)

  /** One claimed event: provision, then sync; an exception leaves the provisioned state. */
  function Handle(s: ReadSide, e: Event): ReadSide {
    var ready := Provision(s, e);
    var synced := Sync(ready, e);
    if synced.Some? then synced.value else ready
  }

  function Replayed(records: seq<Record>): ReadSide {
    if records == [] then NOTHING
    else Handle(Replayed(records[..|records| - 1]), records[|records| - 1].event)
  }

  // ---------- Daily refunds and method rates, row by row ----------

  ghost function DailyRefunds(daily: map<int, Daily>): map<int, int> { map d | d in daily :: daily[d].refund }

  ghost function RefundAmounts(refunds: map<Id, ReadRefund>): map<Id, int> { map r | r in refunds :: refunds[r].amount }

  ghost predicate DailySane(daily: map<int, Daily>) {
    forall d :: d in daily ==> daily[d].net == daily[d].total - daily[d].refund && 0 <= daily[d].refund
  }

  /** Net is total less refunds on every row, and the rows hold no refund that was not applied. */
  ghost predicate RefundsBounded(t: Tables) {
    DailySane(t.daily) && Total(DailyRefunds(t.daily)) <= Total(RefundAmounts(t.refunds))
  }

  lemma DailyRefundsUnmoved(daily: map<int, Daily>, after: map<int, Daily>, d: int)
    requires DailySane(daily) && after.Keys == daily.Keys + {d}
    requires forall k :: k in after && k in daily ==> after[k].refund == daily[k].refund
    requires d !in daily ==> after[d].refund == 0
    ensures Total(DailyRefunds(after)) == Total(DailyRefunds(daily))
  {
    var refund := after[d].refund;
    TotalUpdate(DailyRefunds(daily), d, refund);
    var expected := DailyRefunds(daily)[d := refund];
    assert DailyRefunds(after).Keys == expected.Keys;
    forall k | k in after ensures DailyRefunds(after)[k] == expected[k] {
      if k != d { assert k in daily; }
    }
    assert DailyRefunds(after) == expected;
  }

  lemma RefundAmountsGrow(refunds: map<Id, ReadRefund>, r: Id, row: ReadRefund)
    ensures Total(RefundAmounts(refunds[r := row]))
         == Total(RefundAmounts(refunds)) - (if r in refunds then refunds[r].amount else 0) + row.amount
  {
    TotalUpdate(RefundAmounts(refunds), r, row.amount);
    assert RefundAmounts(refunds[r := row]) == RefundAmounts(refunds)[r := row.amount];
  }

  lemma RefundBounded(t: Tables, r: Id, row: Refund, customerId: Id)
    requires RefundsBounded(t) && r !in t.refunds && 0 < row.amount
    ensures RefundsBounded(OnRefundInitiated(t, r, row, customerId))
  {
    var u := OnRefundInitiated(t, r, row, customerId);
    var d := DateOf(row.createdAt);
    RefundAmountsGrow(t.refunds, r, u.refunds[r]);
    if d in t.daily {
      TotalUpdate(DailyRefunds(t.daily), d, u.daily[d].refund);
      assert DailyRefunds(u.daily) == DailyRefunds(t.daily)[d := u.daily[d].refund];
    }
  }

  lemma RenamesKeepAmounts(t: Tables, id: Id, row: Customer)
    ensures RefundAmounts(OnCustomerUpdated(t, id, row).refunds) == RefundAmounts(t.refunds)
  {
  }

  lemma BoundedKept(t: Tables, e: Event)
    requires RefundsBounded(t) && (e.RefundInitiated? ==> e.refundId !in t.refunds && 0 < e.refund.amount)
    ensures RefundsBounded(Apply(t, e))
  {
    match e
    case PaymentEvent(OnCreated, _, row) => BoundedByDay(t, e, row);
    case PaymentEvent(OnCaptured, _, row) => BoundedByDay(t, e, row);
    case PaymentEvent(OnFailed, _, row) => BoundedByDay(t, e, row);
    case RefundInitiated(r, row, customerId) => RefundBounded(t, r, row, customerId);
    case RefundProcessed(r, _) =>
      if r in t.refunds { RefundAmountsGrow(t.refunds, r, Apply(t, e).refunds[r]); }
    case CustomerUpdated(id, row) => RenamesKeepAmounts(t, id, row);
    case _ =>
  }

  lemma BoundedByDay(t: Tables, e: Event, row: Payment)
    requires RefundsBounded(t) && e.PaymentEvent? && e.payment == row
    requires e.topic == OnCreated || e.topic == OnCaptured || e.topic == OnFailed
    ensures RefundsBounded(Apply(t, e))
  {
    var u := Apply(t, e);
    var d := DateOf(row.createdAt);
    if u.daily != t.daily {
      assert u.daily.Keys == t.daily.Keys + {d};
      DailyRefundsUnmoved(t.daily, u.daily, d);
    }
  }

  /** The stored rate is a percentage, never below what the counts say now. */
  predicate RateSane(m: MethodStats) { 0 <= m.rate <= 10_000 && Rate(m.success, m.count) <= m.rate }

  predicate RatesSane(methods: map<string, MethodStats>) {
    forall v :: v in methods ==> RateSane(methods[v])
  }

  lemma DivBelow(a: int, b: Positive, h: int)
    requires a < b * h
    ensures a / b < h
  {
    if h <= a / b {
      MulLe(b, h, a / b);
    }
  }

  lemma MulLe(b: Positive, x: int, y: int)
    requires x <= y
    ensures b * x <= b * y
  {
  }

  /** One more payment cannot raise the rate. */
  lemma RateFalls(s: int, n: Positive)
    requires 0 <= s
    ensures Rate(s, n + 1) <= Rate(s, n)
  {
    var x, h := 20_000 * s, Rate(s, n) + 1;
    assert x + n < 2 * n * h;
    assert 0 < h;
    assert 2 * (n + 1) * h == 2 * n * h + 2 * h;
    DivBelow(x + (n + 1), 2 * (n + 1), h);
  }

  lemma RateInRange(s: int, n: Positive)
    requires 0 <= s <= n
    ensures 0 <= Rate(s, n) <= 10_000
  {
    DivBelow(20_000 * s + n, 2 * n, 10_001);
  }

  lemma RatesCreated(methods: map<string, MethodStats>, row: Payment)
    requires RatesSane(methods) && forall v :: v in methods ==> 0 <= methods[v].success
    ensures RatesSane(MethodsCreated(methods, row))
  {
    if row.via in methods { RateFalls(methods[row.via].success, methods[row.via].count); }
  }

  /** A row whose rate was just computed. */
  lemma RateWritten(methods: map<string, MethodStats>, v: string, m: MethodStats)
    requires RatesSane(methods) && 0 <= m.success <= m.count && m.rate == Rate(m.success, m.count)
    ensures RatesSane(methods[v := m])
  {
    RateInRange(m.success, m.count);
  }

  lemma RatesKept(t: Tables, e: Event)
    requires RatesSane(t.methods)
    requires forall v :: v in t.methods ==> 0 <= t.methods[v].success
    requires var u := Apply(t, e); forall v :: v in u.methods ==> 0 <= u.methods[v].success <= u.methods[v].count
    ensures RatesSane(Apply(t, e).methods)
    ensures e.PaymentEvent? && (e.topic == OnCaptured || e.topic == OnFailed) && e.payment.via in t.methods ==>
      var m := Apply(t, e).methods[e.payment.via]; m.rate == Rate(m.success, m.count)
  {
    var after := Apply(t, e).methods;
    if e.PaymentEvent? && e.topic == OnCreated {
      RatesCreated(t.methods, e.payment);
    } else if e.PaymentEvent? && (e.topic == OnCaptured || e.topic == OnFailed) && e.payment.via in t.methods {
      var v := e.payment.via;
      assert after == t.methods[v := after[v]];
      RateWritten(t.methods, v, after[v]);
    } else {
      assert after == t.methods;
    }
  }

  // ---------- No column overflows ----------

  lemma SumWithinVolume(c: Core, s: Scope, m: Measure)
    requires RowsSane(c) && VolumeFits(c) && (m == Amount || m == Spent || m == Refunded)
    ensures 0 <= Sum(c.payments, s, m) <= MAX_CENTS
  {
    SumNonNegative(c.payments, s, m);
    SumLe(c.payments, s, m, All, Amount);
  }

  lemma CustomersFit(t: Tables, c: Core)
    requires Good(c) && CustomersAgree(t.customers, c.customers, c.payments)
    ensures forall i :: i in t.customers ==> 0 <= t.customers[i].totalSpent <= MAX_CENTS
  {
    forall i | i in t.customers ensures 0 <= t.customers[i].totalSpent <= MAX_CENTS {
      SumWithinVolume(c, OfCustomer(i), Spent);
    }
  }

  lemma AppliedRefunds(t: Tables, c: Core)
    requires Good(c) && RefundsAgree(t.refunds, c.customers, c.payments, c.refunds)
    ensures Total(RefundAmounts(t.refunds)) == Sum(c.payments, All, Refunded) <= MAX_CENTS
  {
    assert RefundAmounts(t.refunds) == RefundColumn(c.refunds, None);
    SumWithinVolume(c, All, Refunded);
  }

  lemma DailyFit(t: Tables, c: Core)
    requires Good(c) && DailyAgrees(t.daily, c.payments) && RefundsBounded(t)
    requires RefundsAgree(t.refunds, c.customers, c.payments, c.refunds)
    ensures forall d :: d in t.daily ==> InRange(t.daily[d].total) && InRange(t.daily[d].refund) && InRange(t.daily[d].net)
  {
    AppliedRefunds(t, c);
    forall d | d in t.daily
      ensures InRange(t.daily[d].total) && InRange(t.daily[d].refund) && InRange(t.daily[d].net)
    {
      SumWithinVolume(c, OnDate(d), Amount);
      var column := DailyRefunds(t.daily);
      forall k | k in column ensures 0 <= column[k] {}
      TotalBoundsEntry(column, d);
    }
  }

  lemma MethodsFit(t: Tables, c: Core)
    requires Good(c) && MethodsAgree(t.methods, c.payments) && RatesSane(t.methods)
    ensures forall v :: v in t.methods ==> InRange(t.methods[v].total) && 0 <= t.methods[v].rate <= MAX_RATE
  {
    forall v | v in t.methods ensures InRange(t.methods[v].total) && 0 <= t.methods[v].rate <= MAX_RATE {
      SumWithinVolume(c, ByMethod(v), Amount);
      assert RateSane(t.methods[v]);
    }
  }

  lemma TablesFit(t: Tables, c: Core)
    requires Good(c) && Agrees(t, c) && RefundsBounded(t) && RatesSane(t.methods)
    ensures Fits(t)
  {
    CustomersFit(t, c);
    DailyFit(t, c);
    MethodsFit(t, c);
  }

  /** Nothing counts as more often successful or failed than it was counted. */
  predicate DayCounts(y: Daily) { 0 <= y.success && 0 <= y.failed && y.success + y.failed <= y.count }

  lemma MethodCountsSane(methods: map<string, MethodStats>, payments: map<Id, Payment>)
    requires MethodsAgree(methods, payments)
    ensures forall v :: v in methods ==> 0 <= methods[v].success <= methods[v].count
  {
    forall v | v in methods ensures 0 <= methods[v].success <= methods[v].count {
      MethodCountSane(methods[v], payments, v);
    }
  }

  lemma MethodCountSane(m: MethodStats, payments: map<Id, Payment>, v: string)
    requires MethodAgrees(m, payments, v)
    ensures 0 <= m.success <= m.count
  {
    SumNonNegative(payments, ByMethod(v), Success);
    SumLe(payments, ByMethod(v), Success, ByMethod(v), Count);
  }

  lemma DayCountsSane(daily: map<int, Daily>, payments: map<Id, Payment>)
    requires DailyAgrees(daily, payments)
    ensures forall d :: d in daily ==> DayCounts(daily[d])
  {
    forall d | d in daily ensures DayCounts(daily[d]) { DayCountSane(daily[d], payments, d); }
  }

  lemma DayCountSane(y: Daily, payments: map<Id, Payment>, d: int)
    requires DayAgrees(y, payments, d)
    ensures DayCounts(y)
  {
    SumNonNegative(payments, OnDate(d), Success);
    SumNonNegative(payments, OnDate(d), Failure);
    OutcomesWithinCount(payments, OnDate(d));
  }

  lemma {:induction false} OutcomesWithinCount(payments: map<Id, Payment>, s: Scope)
    ensures Sum(payments, s, Success) + Sum(payments, s, Failure) <= Sum(payments, s, Count)
    decreases |payments|
  {
    if payments == map[] {
      SumZero(payments, s);
    } else {
      var p :| p in payments;
      var rest := payments - {p};
      assert rest.Keys == payments.Keys - {p};
      assert payments == rest[p := payments[p]];
      OutcomesWithinCount(rest, s);
      OutcomeStep(rest, p, payments[p], s);
    }
  }

  lemma OutcomeStep(rest: map<Id, Payment>, p: Id, row: Payment, s: Scope)
    requires p !in rest && Sum(rest, s, Success) + Sum(rest, s, Failure) <= Sum(rest, s, Count)
    ensures var all := rest[p := row]; Sum(all, s, Success) + Sum(all, s, Failure) <= Sum(all, s, Count)
  {
    SumWrite(rest, p, row, s, Success);
    SumWrite(rest, p, row, s, Failure);
    SumWrite(rest, p, row, s, Count);
  }

  // ---------- The read side keeps up with every history ----------

  ghost predicate InStep(s: ReadSide, c: Core) {
    && s.mirror == Some(c.profile) && s.tables.Some?
    && Agrees(s.tables.value, c) && RefundsBounded(s.tables.value) && RatesSane(s.tables.value.methods)
  }

  lemma TablesInStep(t: Tables, c: Core, command: Command, now: Time, d: Core, e: Event)
    requires Good(c) && Agrees(t, c) && RefundsBounded(t) && RatesSane(t.methods)
    requires EffectOf(c, command, now) == Does(d, e) && RowsSane(d)
    ensures Agrees(Apply(t, e), d) && RefundsBounded(Apply(t, e)) && RatesSane(Apply(t, e).methods)
  {
    ApplyKeeps(t, c, command, now, d, e);
    NewRefund(t, c, command, now, d, e);
    BoundedKept(t, e);
    MethodCountsSane(t.methods, c.payments);
    MethodCountsSane(Apply(t, e).methods, d.payments);
    RatesKept(t, e);
  }

  lemma NewRefund(t: Tables, c: Core, command: Command, now: Time, d: Core, e: Event)
    requires RefundsAgree(t.refunds, c.customers, c.payments, c.refunds) && EffectOf(c, command, now) == Does(d, e)
    ensures e.RefundInitiated? ==> e.refundId !in t.refunds && 0 < e.refund.amount
  {
  }

  lemma MerchantEvents(c: Core, command: Command, now: Time, d: Core, e: Event)
    requires EffectOf(c, command, now) == Does(d, e)
    ensures !e.MerchantCreated?
    ensures e.MerchantUpdated? ==> d == c.(profile := e.profile)
    ensures !e.MerchantUpdated? ==> d.profile == c.profile
  {
  }

  lemma AgreesOutbox(t: Tables, c: Core, outbox: seq<Record>)
    requires Agrees(t, c)
    ensures Agrees(t, c.(outbox := outbox))
  {
  }

  /** One event that fits, on the read side. */
  lemma HandlesEvent(s: ReadSide, t: Tables, e: Event)
    requires s.tables == Some(t) && !e.MerchantCreated? && Fits(Apply(t, e))
    ensures Sync(Provision(s, e), e).Some? && Handle(s, e).tables == Some(Apply(t, e))
    ensures Handle(s, e).mirror == if e.MerchantUpdated? && s.mirror.Some? then Some(e.profile) else s.mirror
  {
  }

  ghost predicate TablesLevel(t: Tables, c: Core) {
    Agrees(t, c) && RefundsBounded(t) && RatesSane(t.methods)
  }

  lemma CommitTables(t: Tables, c: Core, tx: Tx, d0: Core, d: Core, e: Event)
    requires Good(c) && TablesLevel(t, c) && EffectOf(c, tx.command, tx.now) == Does(d0, e)
    requires d == d0.(outbox := d.outbox) && RowsSane(d0)
    ensures TablesLevel(Apply(t, e), d)
  {
    TablesInStep(t, c, tx.command, tx.now, d0, e);
    AgreesOutbox(Apply(t, e), d0, d.outbox);
  }

  lemma CommitEvent(c: Core, tx: Tx, d: Core) returns (d0: Core, e: Event)
    requires Execute(c, tx) == Ok(d)
    ensures |d.outbox| == |c.outbox| + 1 && e == d.outbox[|c.outbox|].event && EffectOf(c, tx.command, tx.now) == Does(d0, e)
    ensures d == d0.(outbox := d.outbox) && d.profile == d0.profile
    ensures !e.MerchantCreated? && d.profile == if e.MerchantUpdated? then e.profile else c.profile
  {
    OneEventEach(c, tx, d);
    var Does(d1, e1) := EffectOf(c, tx.command, tx.now);
    d0, e := d1, e1;
    MerchantEvents(c, tx.command, tx.now, d0, e);
  }

  lemma RowsSaneIn(c: Core, d: Core)
    requires RowsSane(c) && d.customers == c.customers && d.payments == c.payments && d.refunds == c.refunds
    ensures RowsSane(d)
  {
  }

  /** A commit's event is handled without an exception and brings the read side level again. */
  lemma HandleInStep(s: ReadSide, c: Core, tx: Tx, d: Core)
    requires Good(c) && InStep(s, c) && Execute(c, tx) == Ok(d)
    ensures |d.outbox| == |c.outbox| + 1
    ensures var e := d.outbox[|c.outbox|].event;
      Sync(Provision(s, e), e).Some? && InStep(Handle(s, e), d)
  {
    var d0, e := CommitEvent(c, tx, d);
    GoodKept(c, tx, d);
    RowsSaneIn(d, d0);
    CommitTables(s.tables.value, c, tx, d0, d, e);
    TablesFit(Apply(s.tables.value, e), d);
    HandlesEvent(s, s.tables.value, e);
  }

  lemma GenesisInStep(profile: Profile, eventId: Id, now: Time)
    ensures var c := Genesis(profile, eventId, now); InStep(Replayed(c.outbox), c)
  {
    var c := Genesis(profile, eventId, now);
    assert c.outbox[..0] == [];
    assert Replayed(c.outbox) == ReadSide(Some(profile), Some(NO_TABLES));
    TotalZero(DailyRefunds(map[]));
    TotalZero(RefundAmounts(map[]));
  }

  lemma {:induction false} ReplayInStep(profile: Profile, eventId: Id, now: Time, history: seq<Tx>)
    ensures var c := Run(Genesis(profile, eventId, now), history); InStep(Replayed(c.outbox), c)
  {
    var start := Genesis(profile, eventId, now);
    if history == [] {
      GenesisInStep(profile, eventId, now);
    } else {
      var before := history[..|history| - 1];
      var c, tx := Run(start, before), history[|history| - 1];
      ReplayInStep(profile, eventId, now, before);
      if Execute(c, tx).Ok? {
        var d := Execute(c, tx).core;
        GenesisIsGood(profile, eventId, now);
        ReachableIsGood(start, before);
        OneEventEach(c, tx, d);
        HandleInStep(Replayed(c.outbox), c, tx, d);
      }
    }
  }

  /** Every non-empty prefix of the outbox is the whole outbox of an earlier state. */
  lemma {:induction false} PrefixIsPast(start: Core, history: seq<Tx>, h: nat) returns (k: nat)
    requires |start.outbox| <= h <= |Run(start, history).outbox|
    ensures k <= |history| && Run(start, history[..k]).outbox == Run(start, history).outbox[..h]
  {
    var all := Run(start, history).outbox;
    if h == |all| {
      k := |history|;
      assert history[..k] == history && all[..h] == all;
    } else {
      var before := history[..|history| - 1];
      var c, tx := Run(start, before), history[|history| - 1];
      if Execute(c, tx).Ok? { OneEventEach(c, tx, Execute(c, tx).core); }
      k := PrefixIsPast(start, before, h);
      assert before[..k] == history[..k];
      assert c.outbox[..h] == all[..h];
    }
  }

  /** The refinement: whatever part of a merchant's outbox has been folded in, the read side is the
      recompute of a state the merchant's core tables were once in. */
  lemma {:induction false} ReadRefinesPast(profile: Profile, eventId: Id, now: Time, history: seq<Tx>, h: nat)
    requires 1 <= h <= |Run(Genesis(profile, eventId, now), history).outbox|
    ensures var start := Genesis(profile, eventId, now);
      exists k :: 0 <= k <= |history| && InStep(Replayed(Run(start, history).outbox[..h]), Run(start, history[..k]))
  {
    var start := Genesis(profile, eventId, now);
    var k := PrefixIsPast(start, history, h);
    ReplayInStep(profile, eventId, now, history[..k]);
  }
}
