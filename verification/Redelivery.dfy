/** What handling an event a second time would do: why the claims are needed. */
module Redelivery {
  import opened Domain
  import opened Aggregates
  import opened CoreTables
  import opened ReadTables
  import opened Projection
  import opened Replay

  /** The tables for which a second handling makes no difference. */
  predicate SafeTwice(t: Tables, e: Event) {
    match e
    case PaymentEvent(OnCreated, _, _) => false
    case PaymentEvent(OnCaptured, _, row) => (
      && row.createdAt / 86_400_000_000 !in t.daily && row.via !in t.methods
      && (row.customerId in t.customers ==> row.amount == 0))
    case PaymentEvent(OnFailed, _, row) => row.createdAt / 86_400_000_000 !in t.daily
    case RefundInitiated(_, row, customerId) => (
      row.amount == 0 || (row.createdAt / 86_400_000_000 !in t.daily && customerId !in t.customers))
    case _ => true
  }

  lemma CustomerTwice(t: Tables, id: Id, row: Customer)
    ensures var once := OnCustomerUpdated(t, id, row); OnCustomerUpdated(once, id, row) == once
    ensures var once := OnCustomerCreated(t, id, row); OnCustomerCreated(once, id, row) == once
    ensures var once := OnCustomerDeleted(t, id); OnCustomerDeleted(once, id) == once
  {
    var once := OnCustomerUpdated(t, id, row);
    assert PaymentsRenamed(once.payments, id, row) == once.payments;
    assert RefundsRenamed(once.refunds, once.payments, id, row) == once.refunds;
    assert Renamed(once.customers, id, row) == once.customers;
    var deleted := OnCustomerDeleted(t, id);
    assert deleted.customers - {id} == deleted.customers;
  }

  lemma CreatedTwice(t: Tables, id: Id, row: Payment)
    ensures var once := OnPaymentCreated(t, id, row);
      OnPaymentCreated(once, id, row) != once && OnPaymentCreated(once, id, row).payments == once.payments
  {
    var once, date := OnPaymentCreated(t, id, row), DateOf(row.createdAt);
    assert OnPaymentCreated(once, id, row).daily[date].count == once.daily[date].count + 1;
  }

  lemma StatusTwice(payments: map<Id, ReadPayment>, id: Id, s: Status)
    ensures SetStatus(SetStatus(payments, id, s), id, s) == SetStatus(payments, id, s)
  {
  }

  lemma SpentTwice(customers: map<Id, ReadCustomer>, c: Id, delta: Cents)
    ensures Spend(Spend(customers, c, delta), c, delta) == Spend(customers, c, delta) <==> c !in customers || delta == 0
  {
    var once := Spend(customers, c, delta);
    if c in customers { assert Spend(once, c, delta)[c].totalSpent == once[c].totalSpent + delta; }
  }

  lemma DailyTwice(daily: map<int, Daily>, row: Payment)
    ensures DailyCaptured(DailyCaptured(daily, row), row) == DailyCaptured(daily, row) <==> DateOf(row.createdAt) !in daily
    ensures DailyFailed(DailyFailed(daily, row), row) == DailyFailed(daily, row) <==> DateOf(row.createdAt) !in daily
  {
    var d, captured, failed := DateOf(row.createdAt), DailyCaptured(daily, row), DailyFailed(daily, row);
    if d in daily {
      assert DailyCaptured(captured, row)[d].success == captured[d].success + 1;
      assert DailyFailed(failed, row)[d].failed == failed[d].failed + 1;
    }
  }

  lemma MethodsTwice(methods: map<string, MethodStats>, row: Payment)
    ensures MethodsCaptured(MethodsCaptured(methods, row), row) == MethodsCaptured(methods, row) <==> row.via !in methods
    ensures MethodsFailed(MethodsFailed(methods, row), row) == MethodsFailed(methods, row)
  {
    var captured := MethodsCaptured(methods, row);
    if row.via in methods {
      assert MethodsCaptured(captured, row)[row.via].success == captured[row.via].success + 1;
    }
  }

  lemma RefundTwice(t: Tables, id: Id, row: Refund, customerId: Id)
    ensures var once := OnRefundInitiated(t, id, row, customerId);
      (OnRefundInitiated(once, id, row, customerId) == once)
        == (row.amount == 0 || (DateOf(row.createdAt) !in t.daily && customerId !in t.customers))
  {
    var once, d := OnRefundInitiated(t, id, row, customerId), DateOf(row.createdAt);
    SpentTwice(t.customers, customerId, -row.amount);
    assert RefundInserted(once.refunds, once.payments, id, row) == once.refunds;
    if d in t.daily {
      assert DailyRefunded(once.daily, row)[d].refund == once.daily[d].refund + row.amount;
      assert row.amount == 0 ==> DailyRefunded(once.daily, row) == once.daily;
    }
  }

  /** Handling an event twice equals handling it once exactly if it adds nothing to a count or an amount: the
      upserts alone make a redelivery safe only for the other events. */
  lemma HandledTwiceIff(t: Tables, e: Event)
    ensures Apply(Apply(t, e), e) == Apply(t, e) <==> SafeTwice(t, e)
  {
    match e
    case CustomerCreated(id, row) => CustomerTwice(t, id, row);
    case CustomerUpdated(id, row) => CustomerTwice(t, id, row);
    case CustomerDeleted(id) => CustomerTwice(t, id, Customer("", None));
    case PaymentEvent(OnCreated, id, row) => CreatedTwice(t, id, row);
    case PaymentEvent(OnAuthorized, id, _) => StatusTwice(t.payments, id, Authorized);
    case PaymentEvent(OnCaptured, id, row) =>
      StatusTwice(t.payments, id, Captured);
      DailyTwice(t.daily, row);
      MethodsTwice(t.methods, row);
      SpentTwice(t.customers, row.customerId, row.amount);
    case PaymentEvent(OnFailed, id, row) =>
      StatusTwice(t.payments, id, Failed);
      DailyTwice(t.daily, row);
      MethodsTwice(t.methods, row);
    case RefundInitiated(id, row, customerId) => RefundTwice(t, id, row, customerId);
    case _ =>
  }

  /** On the read tables of any history a created, captured or failed event of a known payment would be counted
      again, without the claim that stops it. */
  lemma {:induction false} WouldCountAgain(profile: Profile, eventId: Id, now: Time, history: seq<Tx>, p: Id, topic: PaymentTopic)
    requires p in Run(Genesis(profile, eventId, now), history).payments
    requires topic == OnCreated || topic == OnCaptured || topic == OnFailed
    ensures var c := Run(Genesis(profile, eventId, now), history);
      var t, e := Replayed(c.outbox).tables, PaymentEvent(topic, p, c.payments[p]);
      t.Some? && Apply(Apply(t.value, e), e) != Apply(t.value, e)
  {
    ReplayInStep(profile, eventId, now, history);
    var c := Run(Genesis(profile, eventId, now), history);
    var side := Replayed(c.outbox);
    DayIsThere(side, c, p);
    HandledTwiceIff(side.tables.value, PaymentEvent(topic, p, c.payments[p]));
  }

  lemma DayIsThere(s: ReadSide, c: Core, p: Id)
    requires InStep(s, c) && p in c.payments
    ensures c.payments[p].createdAt / 86_400_000_000 in s.tables.value.daily
  {
    assert InScope(OnDate(DateOf(c.payments[p].createdAt)), c.payments[p]);
  }

  /** A conflicting insert keeps every column of the stored row except its status. */
  lemma UpsertKeepsRow(t: Tables, id: Id, row: Payment)
    requires id in t.payments
    ensures var now := OnPaymentCreated(t, id, row).payments;
      && now.Keys == t.payments.Keys && now[id].status == row.status
      && now[id].(status := t.payments[id].status) == t.payments[id]
      && forall p :: p in t.payments && p != id ==> now[p] == t.payments[p]
  {
  }
}
