/** One merchant's read-side tables and the handlers that fold events into them. */
module ReadTables {
  import opened Domain

  type Positive = n: int | 0 < n witness 1

  datatype ReadCustomer = ReadCustomer(name: string, email: Option<string>, totalPayments: int, totalSpent: Cents)
  datatype ReadPayment = ReadPayment(customerId: Id, customerName: Option<string>, customerEmail: Option<string>,
                                     amount: Cents, status: Status, via: string, amountRefunded: Cents, createdAt: Time)
  datatype ReadRefund = ReadRefund(paymentId: Id, paymentAmount: Option<Cents>, customerName: Option<string>,
                                   amount: Cents, status: RefundStatus)
  datatype Daily = Daily(total: Cents, count: int, success: int, failed: int, refund: Cents, net: Cents)
  /** `rate` is in hundredths of a percent: DECIMAL(5,2) of a percentage. */
  datatype MethodStats = MethodStats(total: Cents, count: Positive, success: int, rate: int)

  datatype Tables = Tables(
    customers: map<Id, ReadCustomer>,
    payments: map<Id, ReadPayment>,
    refunds: map<Id, ReadRefund>,
    daily: map<int, Daily>,
    methods: map<string, MethodStats>)

  /** The merchant mirror and, once the merchant schema exists, its tables. */
  datatype ReadSide = ReadSide(mirror: Option<Profile>, tables: Option<Tables>)

  const NO_TABLES := Tables(map[], map[], map[], map[], map[])

  /** ROUND(success / count * 100, 2), half away from zero, in hundredths of a percent. */
  function Rate(success: int, count: Positive): int {
    (20_000 * success + count) / (2 * count)
  }

  // ---------- The statements of the handlers, table by table ----------

  function Renamed(customers: map<Id, ReadCustomer>, id: Id, row: Customer): map<Id, ReadCustomer> {
    if id in customers then customers[id := customers[id].(name := row.name, email := row.email)] else customers
  }

  function PaymentsRenamed(payments: map<Id, ReadPayment>, id: Id, row: Customer): map<Id, ReadPayment> {
    map p | p in payments ::
      if payments[p].customerId == id then payments[p].(customerName := Some(row.name), customerEmail := row.email)
      else payments[p]
  }

  function RefundsRenamed(refunds: map<Id, ReadRefund>, payments: map<Id, ReadPayment>, id: Id, row: Customer)
    : map<Id, ReadRefund>
  {
    map r | r in refunds ::
      if refunds[r].paymentId in payments && payments[refunds[r].paymentId].customerId == id
      then refunds[r].(customerName := Some(row.name)) else refunds[r]
  }

  function PaymentInserted(payments: map<Id, ReadPayment>, customers: map<Id, ReadCustomer>, id: Id, row: Payment)
    : map<Id, ReadPayment>
  {
    var c := row.customerId;
    payments[id :=
      if id in payments then payments[id].(status := row.status)
      else ReadPayment(c, if c in customers then Some(customers[c].name) else None,
                       if c in customers then customers[c].email else None,
                       row.amount, row.status, row.via, 0, row.createdAt)]
  }

  function SetStatus(payments: map<Id, ReadPayment>, id: Id, s: Status): map<Id, ReadPayment> {
    if id in payments then payments[id := payments[id].(status := s)] else payments
  }

  function Counted(customers: map<Id, ReadCustomer>, c: Id): map<Id, ReadCustomer> {
    if c in customers then customers[c := customers[c].(totalPayments := customers[c].totalPayments + 1)] else customers
  }

  function Spend(customers: map<Id, ReadCustomer>, c: Id, delta: Cents): map<Id, ReadCustomer> {
    if c in customers then customers[c := customers[c].(totalSpent := customers[c].totalSpent + delta)] else customers
  }

  function DailyCreated(daily: map<int, Daily>, row: Payment): map<int, Daily> {
    var d := DateOf(row.createdAt);
    daily[d :=
      if d in daily
      then var y := daily[d]; y.(total := y.total + row.amount, count := y.count + 1, net := y.net + row.amount)
      else Daily(row.amount, 1, 0, 0, 0, row.amount)]
  }

  function DailyCaptured(daily: map<int, Daily>, row: Payment): map<int, Daily> {
    var d := DateOf(row.createdAt);
    if d in daily then daily[d := daily[d].(success := daily[d].success + 1)] else daily
  }

  function DailyFailed(daily: map<int, Daily>, row: Payment): map<int, Daily> {
    var d := DateOf(row.createdAt);
    if d in daily then daily[d := daily[d].(failed := daily[d].failed + 1)] else daily
  }

  function DailyRefunded(daily: map<int, Daily>, row: Refund): map<int, Daily> {
    var d := DateOf(row.createdAt);
    if d in daily
    then var y := daily[d]; daily[d := y.(refund := y.refund + row.amount, net := y.net - row.amount)]
    else daily
  }

  function MethodsCreated(methods: map<string, MethodStats>, row: Payment): map<string, MethodStats> {
    methods[row.via :=
      if row.via in methods
      then var m := methods[row.via]; m.(total := m.total + row.amount, count := m.count + 1)
      else MethodStats(row.amount, 1, 0, 0)]
  }

  function MethodsCaptured(methods: map<string, MethodStats>, row: Payment): map<string, MethodStats> {
    if row.via in methods
    then var m := methods[row.via];
         methods[row.via := m.(success := m.success + 1, rate := Rate(m.success + 1, m.count))]
    else methods
  }

  function MethodsFailed(methods: map<string, MethodStats>, row: Payment): map<string, MethodStats> {
    if row.via in methods
    then var m := methods[row.via]; methods[row.via := m.(rate := Rate(m.success, m.count))]
    else methods
  }

  function RefundInserted(refunds: map<Id, ReadRefund>, payments: map<Id, ReadPayment>, id: Id, row: Refund)
    : map<Id, ReadRefund>
  {
    var known := row.paymentId in payments;
    refunds[id :=
      if id in refunds then refunds[id].(status := row.status)
      else ReadRefund(row.paymentId, if known then Some(payments[row.paymentId].amount) else None,
                      if known then payments[row.paymentId].customerName else None, row.amount, row.status)]
  }

  function RefundClosed(refunds: map<Id, ReadRefund>, id: Id): map<Id, ReadRefund> {
    if id in refunds then refunds[id := refunds[id].(status := Processed)] else refunds
  }

  /** Renaming the payments first does not change whose refunds are renamed. */
  lemma SameOwners(before: map<Id, ReadPayment>, after: map<Id, ReadPayment>, renamed: map<Id, ReadRefund>,
                   refunds: map<Id, ReadRefund>, id: Id, row: Customer)
    requires after == PaymentsRenamed(before, id, row) && renamed == RefundsRenamed(refunds, after, id, row)
    ensures renamed == RefundsRenamed(refunds, before, id, row)
  {
  }

  // ---------- The handlers ----------

  function OnCustomerCreated(t: Tables, id: Id, row: Customer): Tables {
    t.(customers := if id in t.customers then Renamed(t.customers, id, row)
                    else t.customers[id := ReadCustomer(row.name, row.email, 0, 0)])
  }

  function OnCustomerUpdated(t: Tables, id: Id, row: Customer): Tables {
    t.(customers := Renamed(t.customers, id, row), payments := PaymentsRenamed(t.payments, id, row),
       refunds := RefundsRenamed(t.refunds, t.payments, id, row))
  }

  function OnCustomerDeleted(t: Tables, id: Id): Tables {
    t.(customers := t.customers - {id})
  }

  function OnPaymentCreated(t: Tables, id: Id, row: Payment): Tables {
    t.(payments := PaymentInserted(t.payments, t.customers, id, row), daily := DailyCreated(t.daily, row),
       methods := MethodsCreated(t.methods, row), customers := Counted(t.customers, row.customerId))
  }

  function OnPaymentAuthorized(t: Tables, id: Id): Tables {
    t.(payments := SetStatus(t.payments, id, Authorized))
  }

  function OnPaymentCaptured(t: Tables, id: Id, row: Payment): Tables {
    t.(payments := SetStatus(t.payments, id, Captured), daily := DailyCaptured(t.daily, row),
       methods := MethodsCaptured(t.methods, row), customers := Spend(t.customers, row.customerId, row.amount))
  }

  function OnPaymentFailed(t: Tables, id: Id, row: Payment): Tables {
    t.(payments := SetStatus(t.payments, id, Failed), daily := DailyFailed(t.daily, row),
       methods := MethodsFailed(t.methods, row))
  }

  function OnRefundInitiated(t: Tables, id: Id, row: Refund, customerId: Id): Tables {
    t.(refunds := RefundInserted(t.refunds, t.payments, id, row), daily := DailyRefunded(t.daily, row),
       customers := Spend(t.customers, customerId, -row.amount))
  }

  function OnRefundProcessed(t: Tables, id: Id): Tables {
    t.(refunds := RefundClosed(t.refunds, id))
  }

  predicate NeedsTables(e: Event) {
    !e.MerchantCreated? && !e.MerchantUpdated? && !(e.PaymentEvent? && e.topic == OnSettled)
  }

  /** The handler registry, for events about a merchant's own tables. Nothing handles `settled`. */
  function Apply(t: Tables, e: Event): Tables {
    match e
    case CustomerCreated(id, row) => OnCustomerCreated(t, id, row)
    case CustomerUpdated(id, row) => OnCustomerUpdated(t, id, row)
    case CustomerDeleted(id) => OnCustomerDeleted(t, id)
    case PaymentEvent(OnCreated, id, row) => OnPaymentCreated(t, id, row)
    case PaymentEvent(OnAuthorized, id, row) => OnPaymentAuthorized(t, id)
    case PaymentEvent(OnCaptured, id, row) => OnPaymentCaptured(t, id, row)
    case PaymentEvent(OnFailed, id, row) => OnPaymentFailed(t, id, row)
    case RefundInitiated(id, row, customerId) => OnRefundInitiated(t, id, row, customerId)
    case RefundProcessed(id, _) => OnRefundProcessed(t, id)
    case _ => t
  }

  predicate InRange(x: Cents) { -MAX_CENTS <= x <= MAX_CENTS }

  /** The largest value of the DECIMAL(5,2) rate column. */
  const MAX_RATE: int := 99_999

  /** Every DECIMAL aggregate holds a value that its column can store. */
  predicate Fits(t: Tables) {
    && (forall c :: c in t.customers ==> InRange(t.customers[c].totalSpent))
    && (forall d :: d in t.daily ==> InRange(t.daily[d].total) && InRange(t.daily[d].refund) && InRange(t.daily[d].net))
    && (forall m :: m in t.methods ==> InRange(t.methods[m].total) && -MAX_RATE <= t.methods[m].rate <= MAX_RATE)
  }

  /** `sync_event`: None is an exception, for a missing schema or a value out of range. */
  function Sync(s: ReadSide, e: Event): Option<ReadSide> {
    if e.MerchantCreated? then Some(s.(mirror := Some(e.profile)))
    else if e.MerchantUpdated? then Some(s.(mirror := if s.mirror.Some? then Some(e.profile) else None))
    else if !NeedsTables(e) then Some(s)
    else if s.tables == None then None
    else
      var t := Apply(s.tables.value, e);
      if Fits(t) then Some(s.(tables := Some(t))) else None
  }

  /** Some DECIMAL(12,2) column, or the DECIMAL(5,2) one of the rate, would overflow. */
  predicate Overflows(t: Tables) {
    || (exists c :: c in t.customers && !(-999_999_999_999 <= t.customers[c].totalSpent <= 999_999_999_999))
    || (exists d :: d in t.daily && !(-999_999_999_999 <= t.daily[d].total <= 999_999_999_999))
    || (exists d :: d in t.daily && !(-999_999_999_999 <= t.daily[d].refund <= 999_999_999_999))
    || (exists d :: d in t.daily && !(-999_999_999_999 <= t.daily[d].net <= 999_999_999_999))
    || (exists m :: m in t.methods && !(-999_999_999_999 <= t.methods[m].total <= 999_999_999_999))
    || (exists m :: m in t.methods && !(-99_999 <= t.methods[m].rate <= 99_999))
  }

  /** Events about the merchant itself, and settled payments, are always handled; the handler of any other event
      raises exactly if the merchant's schema is missing or a column would overflow. */
  lemma SyncFailsIff(s: ReadSide, e: Event)
    ensures Sync(s, e) == None <==>
      && (e.CustomerCreated? || e.CustomerUpdated? || e.CustomerDeleted? || e.RefundInitiated? || e.RefundProcessed?
          || (e.PaymentEvent? && e.topic != OnSettled))
      && (s.tables == None || Overflows(Apply(s.tables.value, e)))
  {
    if s.tables.Some? {
      var t := Apply(s.tables.value, e);
      assert Overflows(t) <==> !Fits(t);
    }
  }

  /** `ensure_merchant_schema`, which the consumer calls before it handles merchant.created. */
  function Provision(s: ReadSide, e: Event): ReadSide {
    if e.MerchantCreated? && s.tables == None then s.(tables := Some(NO_TABLES)) else s
  }

  /** The read database of one merchant, with the two bookkeeping tables of the consumer. */
  class ReadDb {
    var mirror: Option<Profile>
    var provisioned: bool
    var customers: map<Id, ReadCustomer>
    var payments: map<Id, ReadPayment>
    var refunds: map<Id, ReadRefund>
    var daily: map<int, Daily>
    var methods: map<string, MethodStats>
    var processedEvents: set<Id>
    var deadLetters: map<Id, Event>

    function Rows(): Tables
      reads this
    {
      Tables(customers, payments, refunds, daily, methods)
    }

    function Side(): ReadSide
      reads this
    {
      ReadSide(mirror, if provisioned then Some(Rows()) else None)
    }

    constructor ()
      ensures Side() == ReadSide(None, None) && processedEvents == {} && deadLetters == map[]
    {
      mirror, provisioned := None, false;
      customers, payments, refunds, daily, methods := map[], map[], map[], map[], map[];
      processedEvents, deadLetters := {}, map[];
    }

    method SyncCustomerCreated(id: Id, row: Customer)
      modifies this`customers
      ensures Rows() == OnCustomerCreated(old(Rows()), id, row)
    {
      if id in customers {
        customers := customers[id := customers[id].(name := row.name, email := row.email)];
      } else {
        customers := customers[id := ReadCustomer(row.name, row.email, 0, 0)];
      }
    }

    method RenameRefunds(id: Id, row: Customer)
      modifies this`refunds
      ensures refunds == RefundsRenamed(old(refunds), payments, id, row)
    {
      var theirs := set p | p in payments && payments[p].customerId == id;
      refunds := map r | r in refunds ::
        if refunds[r].paymentId in theirs then refunds[r].(customerName := Some(row.name)) else refunds[r];
    }

    method SyncCustomerUpdated(id: Id, row: Customer)
      modifies this`customers, this`payments, this`refunds
      ensures Rows() == OnCustomerUpdated(old(Rows()), id, row)
    {
      if id in customers {
        customers := customers[id := customers[id].(name := row.name, email := row.email)];
      }
      payments := map p | p in payments ::
        if payments[p].customerId == id
        then payments[p].(customerName := Some(row.name), customerEmail := row.email) else payments[p];
      RenameRefunds(id, row);
      SameOwners(old(payments), payments, refunds, old(refunds), id, row);
    }

    method SyncCustomerDeleted(id: Id)
      modifies this`customers
      ensures Rows() == OnCustomerDeleted(old(Rows()), id)
    {
      customers := customers - {id};
    }

    method SyncPaymentCreated(id: Id, row: Payment)
      modifies this`customers, this`payments, this`daily, this`methods
      ensures Rows() == OnPaymentCreated(old(Rows()), id, row)
    {
      var name, email := None, None;
      if row.customerId in customers {
        name, email := Some(customers[row.customerId].name), customers[row.customerId].email;
      }
      if id in payments {
        payments := payments[id := payments[id].(status := row.status)];
      } else {
        payments := payments[id := ReadPayment(row.customerId, name, email, row.amount, row.status, row.via, 0, row.createdAt)];
      }
      var date := DateOf(row.createdAt);
      if date in daily {
        var y := daily[date];
        daily := daily[date := y.(total := y.total + row.amount, count := y.count + 1, net := y.net + row.amount)];
      } else {
        daily := daily[date := Daily(row.amount, 1, 0, 0, 0, row.amount)];
      }
      if row.via in methods {
        var m := methods[row.via];
        methods := methods[row.via := m.(total := m.total + row.amount, count := m.count + 1)];
      } else {
        methods := methods[row.via := MethodStats(row.amount, 1, 0, 0)];
      }
      if row.customerId in customers {
        var c := customers[row.customerId];
        customers := customers[row.customerId := c.(totalPayments := c.totalPayments + 1)];
      }
    }

    method UpdateStatus(id: Id, s: Status)
      modifies this`payments
      ensures payments == SetStatus(old(payments), id, s)
    {
      if id in payments { payments := payments[id := payments[id].(status := s)]; }
    }

    method AddSpent(c: Id, delta: Cents)
      modifies this`customers
      ensures customers == Spend(old(customers), c, delta)
    {
      if c in customers { customers := customers[c := customers[c].(totalSpent := customers[c].totalSpent + delta)]; }
    }

    method SyncPaymentCaptured(id: Id, row: Payment)
      modifies this`customers, this`payments, this`daily, this`methods
      ensures Rows() == OnPaymentCaptured(old(Rows()), id, row)
    {
      UpdateStatus(id, Captured);
      var date := DateOf(row.createdAt);
      if date in daily { daily := daily[date := daily[date].(success := daily[date].success + 1)]; }
      if row.via in methods {
        var m := methods[row.via];
        methods := methods[row.via := m.(success := m.success + 1, rate := Rate(m.success + 1, m.count))];
      }
      AddSpent(row.customerId, row.amount);
    }

    method SyncPaymentFailed(id: Id, row: Payment)
      modifies this`payments, this`daily, this`methods
      ensures Rows() == OnPaymentFailed(old(Rows()), id, row)
    {
      UpdateStatus(id, Failed);
      var date := DateOf(row.createdAt);
      if date in daily { daily := daily[date := daily[date].(failed := daily[date].failed + 1)]; }
      if row.via in methods {
        var m := methods[row.via];
        methods := methods[row.via := m.(rate := Rate(m.success, m.count))];
      }
    }

    method SyncRefundInitiated(id: Id, row: Refund, customerId: Id)
      modifies this`customers, this`refunds, this`daily
      ensures Rows() == OnRefundInitiated(old(Rows()), id, row, customerId)
    {
      var paymentAmount, customerName := None, None;
      if row.paymentId in payments {
        paymentAmount, customerName := Some(payments[row.paymentId].amount), payments[row.paymentId].customerName;
      }
      if id in refunds {
        refunds := refunds[id := refunds[id].(status := row.status)];
      } else {
        refunds := refunds[id := ReadRefund(row.paymentId, paymentAmount, customerName, row.amount, row.status)];
      }
      var date := DateOf(row.createdAt);
      if date in daily {
        var y := daily[date];
        daily := daily[date := y.(refund := y.refund + row.amount, net := y.net - row.amount)];
      }
      AddSpent(customerId, -row.amount);
    }

    method SyncRefundProcessed(id: Id)
      modifies this`refunds
      ensures Rows() == OnRefundProcessed(old(Rows()), id)
    {
      if id in refunds { refunds := refunds[id := refunds[id].(status := Processed)]; }
    }

    method SyncMerchant(e: Event)
      requires e.MerchantCreated? || e.MerchantUpdated?
      modifies this`mirror
      ensures mirror == if e.MerchantCreated? || old(mirror).Some? then Some(e.profile) else None
    {
      if e.MerchantCreated? {
        mirror := Some(e.profile);
      } else if mirror.Some? {
        mirror := Some(e.profile);
      }
    }

    method Dispatch(e: Event)
      requires NeedsTables(e)
      modifies this`customers, this`payments, this`refunds, this`daily, this`methods
      ensures Rows() == Apply(old(Rows()), e)
    {
      match e
      case CustomerCreated(id, row) => SyncCustomerCreated(id, row);
      case CustomerUpdated(id, row) => SyncCustomerUpdated(id, row);
      case CustomerDeleted(id) => SyncCustomerDeleted(id);
      case PaymentEvent(OnCreated, id, row) => SyncPaymentCreated(id, row);
      case PaymentEvent(OnAuthorized, id, row) => UpdateStatus(id, Authorized);
      case PaymentEvent(OnCaptured, id, row) => SyncPaymentCaptured(id, row);
      case PaymentEvent(OnFailed, id, row) => SyncPaymentFailed(id, row);
      case RefundInitiated(id, row, customerId) => SyncRefundInitiated(id, row, customerId);
      case RefundProcessed(id, _) => SyncRefundProcessed(id);
      case _ =>
    }

    /** `fault` is an exception from the environment. Whatever the reason, a handler that raises
        leaves the tables as they were. */
    method SyncEvent(e: Event, fault: bool) returns (ok: bool)
      modifies this`mirror, this`customers, this`payments, this`refunds, this`daily, this`methods
      ensures var synced := Sync(old(Side()), e);
        && ok == (!fault && synced.Some?)
        && Side() == (if ok then synced.value else old(Side()))
    {
      if fault { return false; }
      if e.MerchantCreated? || e.MerchantUpdated? {
        SyncMerchant(e);
        return true;
      }
      if !NeedsTables(e) { return true; }
      if !provisioned { return false; }
      var snapshot := Rows();
      Dispatch(e);
      if !Fits(Rows()) {
        customers, payments, refunds := snapshot.customers, snapshot.payments, snapshot.refunds;
        daily, methods := snapshot.daily, snapshot.methods;
        return false;
      }
      return true;
    }

    method EnsureMerchantSchema()
      modifies this`provisioned, this`customers, this`payments, this`refunds, this`daily, this`methods
      ensures Side() == old(Side()).(tables := if old(provisioned) then Some(old(Rows())) else Some(NO_TABLES))
    {
      if !provisioned {
        customers, payments, refunds, daily, methods := map[], map[], map[], map[], map[];
        provisioned := true;
      }
    }

    /** Inserts the event id if it is absent, and says whether it was. */
    method TryClaimEvent(id: Id) returns (claimed: bool)
      modifies this`processedEvents
      ensures claimed <==> id !in old(processedEvents)
      ensures processedEvents == old(processedEvents) + {id}
    {
      claimed := id !in processedEvents;
      processedEvents := processedEvents + {id};
    }
  }
}
