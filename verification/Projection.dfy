/** The incremental read tables against a recompute of them from the core tables. */
module Projection {
  import opened Domain
  import opened Sums
  import opened Aggregates
  import opened CoreTables
  import opened CoreInvariants
  import opened ReadTables

  // ---------- What the read tables should hold, computed from scratch ----------

  /** No handler exists for `settled`, so the read side goes on showing `captured`. */
  function Shown(s: Status): Status { if s == Settled then Captured else s }

  ghost function CustomerView(row: Customer, id: Id, payments: map<Id, Payment>): ReadCustomer {
    ReadCustomer(row.name, row.email, Sum(payments, OfCustomer(id), Count), Sum(payments, OfCustomer(id), Spent))
  }

  /** A payment joined with its customer's current row. */
  function PaymentView(customers: map<Id, Customer>, r: Payment): ReadPayment {
    var c := r.customerId;
    ReadPayment(c, if c in customers then Some(customers[c].name) else None,
                if c in customers then customers[c].email else None,
                r.amount, Shown(r.status), r.via, 0, r.createdAt)
  }

  /** A refund joined with its payment and that payment's customer. */
  function RefundView(customers: map<Id, Customer>, payments: map<Id, Payment>, r: Refund): ReadRefund {
    if r.paymentId !in payments then ReadRefund(r.paymentId, None, None, r.amount, r.status)
    else
      var pay := PaymentView(customers, payments[r.paymentId]);
      ReadRefund(r.paymentId, Some(pay.amount), pay.customerName, r.amount, r.status)
  }

  ghost predicate Inhabited(payments: map<Id, Payment>, s: Scope) {
    exists p :: p in payments && InScope(s, payments[p])
  }

  ghost predicate DayAgrees(y: Daily, payments: map<Id, Payment>, d: int) {
    && y.total == Sum(payments, OnDate(d), Amount) && y.count == Sum(payments, OnDate(d), Count)
    && y.success == Sum(payments, OnDate(d), Success) && y.failed == Sum(payments, OnDate(d), Failure)
  }

  ghost predicate MethodAgrees(m: MethodStats, payments: map<Id, Payment>, via: string) {
    && m.total == Sum(payments, ByMethod(via), Amount) && m.count == Sum(payments, ByMethod(via), Count)
    && m.success == Sum(payments, ByMethod(via), Success)
  }

  ghost predicate CustomersAgree(read: map<Id, ReadCustomer>, customers: map<Id, Customer>, payments: map<Id, Payment>) {
    && read.Keys == customers.Keys
    && forall id :: id in read ==> read[id] == CustomerView(customers[id], id, payments)
  }

  predicate PaymentsAgree(read: map<Id, ReadPayment>, customers: map<Id, Customer>, payments: map<Id, Payment>) {
    && read.Keys == payments.Keys
    && forall p :: p in read ==> read[p] == PaymentView(customers, payments[p])
  }

  predicate RefundsAgree(read: map<Id, ReadRefund>, customers: map<Id, Customer>, payments: map<Id, Payment>,
                         refunds: map<Id, Refund>)
  {
    && read.Keys == refunds.Keys
    && forall r :: r in read ==> read[r] == RefundView(customers, payments, refunds[r])
  }

  ghost predicate DailyAgrees(daily: map<int, Daily>, payments: map<Id, Payment>) {
    forall d :: (d in daily <==> Inhabited(payments, OnDate(d))) && (d in daily ==> DayAgrees(daily[d], payments, d))
  }

  ghost predicate MethodsAgree(methods: map<string, MethodStats>, payments: map<Id, Payment>) {
    forall v :: (v in methods <==> Inhabited(payments, ByMethod(v)))
             && (v in methods ==> MethodAgrees(methods[v], payments, v))
  }

  /** The read tables are the recompute of the core tables (daily refunds and rates aside). */
  ghost predicate Agrees(t: Tables, c: Core) {
    && CustomersAgree(t.customers, c.customers, c.payments)
    && PaymentsAgree(t.payments, c.customers, c.payments)
    && RefundsAgree(t.refunds, c.customers, c.payments, c.refunds)
    && DailyAgrees(t.daily, c.payments)
    && MethodsAgree(t.methods, c.payments)
  }

  // ---------- Writing one payment row ----------

  lemma InhabitedUpdate(payments: map<Id, Payment>, p: Id, row: Payment)
    requires p in payments ==> SameScopes(row, payments[p])
    ensures forall s :: Inhabited(payments[p := row], s) <==> Inhabited(payments, s) || InScope(s, row)
  {
    forall s ensures Inhabited(payments[p := row], s) <==> Inhabited(payments, s) || InScope(s, row) {
      var after := payments[p := row];
      if InScope(s, row) { assert p in after && InScope(s, after[p]); }
      if Inhabited(payments, s) {
        var q :| q in payments && InScope(s, payments[q]);
        assert q in after && InScope(s, after[q]);
      }
      if Inhabited(after, s) && !InScope(s, row) {
        var q :| q in after && InScope(s, after[q]);
        assert q in payments && InScope(s, payments[q]);
      }
    }
  }

  /** The columns that decide a row's scopes never change. */
  predicate SameScopes(a: Payment, b: Payment) {
    a.customerId == b.customerId && a.via == b.via && a.createdAt == b.createdAt && a.amount == b.amount
  }

  lemma EmptySums(payments: map<Id, Payment>, s: Scope)
    requires !Inhabited(payments, s)
    ensures forall m :: Sum(payments, s, m) == 0
  {
    SumZero(payments, s);
  }

  // ---------- The created event, one row of an aggregate at a time ----------

  lemma DayCreated(daily: map<int, Daily>, payments: map<Id, Payment>, p: Id, row: Payment, d: int)
    requires d in daily ==> DayAgrees(daily[d], payments, d)
    requires d !in daily ==> !Inhabited(payments, OnDate(d))
    requires p !in payments && row.status == Created && d in DailyCreated(daily, row)
    ensures DayAgrees(DailyCreated(daily, row)[d], payments[p := row], d)
  {
    SumWrite(payments, p, row, OnDate(d), Amount);
    SumWrite(payments, p, row, OnDate(d), Count);
    SumWrite(payments, p, row, OnDate(d), Success);
    SumWrite(payments, p, row, OnDate(d), Failure);
    if d !in daily { EmptySums(payments, OnDate(d)); }
  }

  lemma DailyAfterCreated(daily: map<int, Daily>, payments: map<Id, Payment>, p: Id, row: Payment)
    requires DailyAgrees(daily, payments) && p !in payments && row.status == Created
    ensures DailyAgrees(DailyCreated(daily, row), payments[p := row])
  {
    InhabitedUpdate(payments, p, row);
    var after := DailyCreated(daily, row);
    forall d ensures d in after <==> Inhabited(payments[p := row], OnDate(d)) {}
    forall d | d in after ensures DayAgrees(after[d], payments[p := row], d) { DayCreated(daily, payments, p, row, d); }
  }

  lemma MethodCreated(methods: map<string, MethodStats>, payments: map<Id, Payment>, p: Id, row: Payment, v: string)
    requires v in methods ==> MethodAgrees(methods[v], payments, v)
    requires v !in methods ==> !Inhabited(payments, ByMethod(v))
    requires p !in payments && row.status == Created && v in MethodsCreated(methods, row)
    ensures MethodAgrees(MethodsCreated(methods, row)[v], payments[p := row], v)
  {
    SumWrite(payments, p, row, ByMethod(v), Amount);
    SumWrite(payments, p, row, ByMethod(v), Count);
    SumWrite(payments, p, row, ByMethod(v), Success);
    if v !in methods { EmptySums(payments, ByMethod(v)); }
  }

  lemma MethodsAfterCreated(methods: map<string, MethodStats>, payments: map<Id, Payment>, p: Id, row: Payment)
    requires MethodsAgree(methods, payments) && p !in payments && row.status == Created
    ensures MethodsAgree(MethodsCreated(methods, row), payments[p := row])
  {
    InhabitedUpdate(payments, p, row);
    var after := MethodsCreated(methods, row);
    forall v ensures v in after <==> Inhabited(payments[p := row], ByMethod(v)) {}
    forall v | v in after ensures MethodAgrees(after[v], payments[p := row], v) { MethodCreated(methods, payments, p, row, v); }
  }

  /** A customer's totals after one payment row is written. */
  lemma CustomerViewAfter(c: Customer, id: Id, payments: map<Id, Payment>, p: Id, row: Payment)
    ensures var was := CustomerView(c, id, payments);
      CustomerView(c, id, payments[p := row]) ==
        was.(totalPayments := was.totalPayments - WeightAt(payments, p, OfCustomer(id), Count)
                              + Weight(OfCustomer(id), Count, row),
             totalSpent := was.totalSpent - WeightAt(payments, p, OfCustomer(id), Spent)
                           + Weight(OfCustomer(id), Spent, row))
  {
    SumWrite(payments, p, row, OfCustomer(id), Count);
    SumWrite(payments, p, row, OfCustomer(id), Spent);
  }

  lemma CustomerCounted(read: ReadCustomer, c: Customer, id: Id, payments: map<Id, Payment>, p: Id, row: Payment)
    requires read == CustomerView(c, id, payments) && p !in payments && row.status == Created
    ensures CustomerView(c, id, payments[p := row])
         == if id == row.customerId then read.(totalPayments := read.totalPayments + 1) else read
  {
    CustomerViewAfter(c, id, payments, p, row);
  }

  lemma CustomersAfterCreated(read: map<Id, ReadCustomer>, customers: map<Id, Customer>, payments: map<Id, Payment>,
                              p: Id, row: Payment)
    requires CustomersAgree(read, customers, payments) && p !in payments && row.status == Created
    ensures CustomersAgree(Counted(read, row.customerId), customers, payments[p := row])
  {
    var after := Counted(read, row.customerId);
    forall id | id in after ensures after[id] == CustomerView(customers[id], id, payments[p := row]) {
      CustomerCounted(read[id], customers[id], id, payments, p, row);
    }
  }

  // ---------- Status events and refunds, which rewrite a row ----------

  /** What the handler of a status event does to the daily rows. */
  function DailyMoved(daily: map<int, Daily>, row: Payment, from: Status): map<int, Daily> {
    if row.status == Captured && from != Captured then DailyCaptured(daily, row)
    else if row.status == Failed && from != Failed then DailyFailed(daily, row)
    else daily
  }

  function MethodsMoved(methods: map<string, MethodStats>, row: Payment, from: Status): map<string, MethodStats> {
    if row.status == Captured && from != Captured then MethodsCaptured(methods, row)
    else if row.status == Failed && from != Failed then MethodsFailed(methods, row)
    else methods
  }

  predicate Edge(from: Status, to: Status) { from == to || to in Allowed(from) }

  /** What a status change does to the success and failure counts of one day. */
  function DayMovedOn(y: Daily, row: Payment, from: Status, d: int): Daily {
    if DateOf(row.createdAt) != d then y
    else if row.status == Captured && from != Captured then y.(success := y.success + 1)
    else if row.status == Failed && from != Failed then y.(failed := y.failed + 1)
    else y
  }

  lemma DayMovedIs(daily: map<int, Daily>, row: Payment, from: Status, d: int)
    requires d in daily
    ensures d in DailyMoved(daily, row, from) && DailyMoved(daily, row, from)[d] == DayMovedOn(daily[d], row, from, d)
  {
  }

  lemma DayRowMoved(y: Daily, payments: map<Id, Payment>, p: Id, row: Payment, d: int)
    requires DayAgrees(y, payments, d) && p in payments
    requires SameScopes(row, payments[p]) && Edge(payments[p].status, row.status)
    ensures DayAgrees(DayMovedOn(y, row, payments[p].status, d), payments[p := row], d)
  {
    SumWrite(payments, p, row, OnDate(d), Amount);
    SumWrite(payments, p, row, OnDate(d), Count);
    SumWrite(payments, p, row, OnDate(d), Success);
    SumWrite(payments, p, row, OnDate(d), Failure);
  }

  lemma DayMoved(daily: map<int, Daily>, payments: map<Id, Payment>, p: Id, row: Payment, d: int)
    requires DailyAgrees(daily, payments) && p in payments
    requires SameScopes(row, payments[p]) && Edge(payments[p].status, row.status)
    requires d in daily
    ensures d in DailyMoved(daily, row, payments[p].status)
    ensures DayAgrees(DailyMoved(daily, row, payments[p].status)[d], payments[p := row], d)
  {
    DayMovedIs(daily, row, payments[p].status, d);
    DayRowMoved(daily[d], payments, p, row, d);
  }

  lemma DailyAfterMove(daily: map<int, Daily>, payments: map<Id, Payment>, p: Id, row: Payment)
    requires DailyAgrees(daily, payments) && p in payments
    requires SameScopes(row, payments[p]) && Edge(payments[p].status, row.status)
    ensures DailyAgrees(DailyMoved(daily, row, payments[p].status), payments[p := row])
  {
    InhabitedUpdate(payments, p, row);
    assert InScope(OnDate(DateOf(row.createdAt)), payments[p]);
    var after := DailyMoved(daily, row, payments[p].status);
    forall d ensures d in after <==> Inhabited(payments[p := row], OnDate(d)) {}
    forall d | d in after ensures DayAgrees(after[d], payments[p := row], d) { DayMoved(daily, payments, p, row, d); }
  }

  lemma MethodMoved(methods: map<string, MethodStats>, payments: map<Id, Payment>, p: Id, row: Payment, v: string)
    requires p in payments && SameScopes(row, payments[p]) && Edge(payments[p].status, row.status)
    requires v in methods && MethodAgrees(methods[v], payments, v)
    ensures MethodAgrees(MethodsMoved(methods, row, payments[p].status)[v], payments[p := row], v)
  {
    SumWrite(payments, p, row, ByMethod(v), Amount);
    SumWrite(payments, p, row, ByMethod(v), Count);
    SumWrite(payments, p, row, ByMethod(v), Success);
  }

  lemma MethodsAfterMove(methods: map<string, MethodStats>, payments: map<Id, Payment>, p: Id, row: Payment)
    requires MethodsAgree(methods, payments) && p in payments
    requires SameScopes(row, payments[p]) && Edge(payments[p].status, row.status)
    ensures MethodsAgree(MethodsMoved(methods, row, payments[p].status), payments[p := row])
  {
    InhabitedUpdate(payments, p, row);
    assert InScope(ByMethod(row.via), payments[p]);
    var after := MethodsMoved(methods, row, payments[p].status);
    forall v ensures v in after <==> Inhabited(payments[p := row], ByMethod(v)) {}
    forall v | v in after ensures MethodAgrees(after[v], payments[p := row], v) { MethodMoved(methods, payments, p, row, v); }
  }

  lemma CustomerSpent(read: ReadCustomer, c: Customer, id: Id, payments: map<Id, Payment>, p: Id, row: Payment)
    requires read == CustomerView(c, id, payments) && p in payments && SameScopes(row, payments[p])
    ensures CustomerView(c, id, payments[p := row])
         == if id == row.customerId
            then read.(totalSpent := read.totalSpent + (Value(Spent, row) - Value(Spent, payments[p]))) else read
  {
    CustomerViewAfter(c, id, payments, p, row);
  }

  lemma CustomersAfterWrite(read: map<Id, ReadCustomer>, customers: map<Id, Customer>, payments: map<Id, Payment>,
                            p: Id, row: Payment, delta: Cents)
    requires CustomersAgree(read, customers, payments) && p in payments && SameScopes(row, payments[p])
    requires delta == Value(Spent, row) - Value(Spent, payments[p])
    ensures CustomersAgree(Spend(read, row.customerId, delta), customers, payments[p := row])
  {
    var after := Spend(read, row.customerId, delta);
    forall id | id in after ensures after[id] == CustomerView(customers[id], id, payments[p := row]) {
      CustomerSpent(read[id], customers[id], id, payments, p, row);
    }
  }

  lemma NothingSpent(read: map<Id, ReadCustomer>, c: Id)
    ensures Spend(read, c, 0) == read
  {
  }

  lemma RefundsUnmoved(read: map<Id, ReadRefund>, customers: map<Id, Customer>, payments: map<Id, Payment>,
                       refunds: map<Id, Refund>, p: Id, row: Payment)
    requires RefundsAgree(read, customers, payments, refunds)
    requires forall r :: r in refunds ==> refunds[r].paymentId in payments
    requires p in payments ==> SameScopes(row, payments[p])
    ensures RefundsAgree(read, customers, payments[p := row], refunds)
  {
  }

  // ---------- One event keeps the read tables in step with one transaction ----------

  lemma NewCustomerHasNone(c: Core, id: Id)
    requires RowsSane(c) && id !in c.customers
    ensures Sum(c.payments, OfCustomer(id), Count) == 0 && Sum(c.payments, OfCustomer(id), Spent) == 0
  {
    SumZero(c.payments, OfCustomer(id));
  }

  lemma NewCustomerAgrees(read: map<Id, ReadCustomer>, customers: map<Id, Customer>, payments: map<Id, Payment>,
                          id: Id, row: Customer)
    requires CustomersAgree(read, customers, payments)
    requires Sum(payments, OfCustomer(id), Count) == 0 && Sum(payments, OfCustomer(id), Spent) == 0
    ensures CustomersAgree(read[id := ReadCustomer(row.name, row.email, 0, 0)], customers[id := row], payments)
  {
    var after := read[id := ReadCustomer(row.name, row.email, 0, 0)];
    forall i | i in after ensures after[i] == CustomerView(customers[id := row][i], i, payments) {
      if i != id { assert read[i] == CustomerView(customers[i], i, payments); }
    }
  }

  lemma CustomerCreatedKeeps(t: Tables, c: Core, id: Id, row: Customer)
    requires Agrees(t, c) && RowsSane(c) && id !in c.customers
    ensures Agrees(OnCustomerCreated(t, id, row), c.(customers := c.customers[id := row]))
  {
    NewCustomerHasNone(c, id);
    NewCustomerAgrees(t.customers, c.customers, c.payments, id, row);
    NewCustomerJoins(t, c, id, row);
  }

  lemma NewCustomerJoins(t: Tables, c: Core, id: Id, row: Customer)
    requires Agrees(t, c) && RowsSane(c) && id !in c.customers
    ensures PaymentsAgree(t.payments, c.customers[id := row], c.payments)
    ensures RefundsAgree(t.refunds, c.customers[id := row], c.payments, c.refunds)
  {
  }

  lemma RenamedPaymentsJoin(t: Tables, c: Core, id: Id, row: Customer)
    requires PaymentsAgree(t.payments, c.customers, c.payments) && id in c.customers
    ensures PaymentsAgree(PaymentsRenamed(t.payments, id, row), c.customers[id := row], c.payments)
  {
  }

  lemma RenamedRefundsJoin(t: Tables, c: Core, id: Id, row: Customer)
    requires PaymentsAgree(t.payments, c.customers, c.payments)
    requires RefundsAgree(t.refunds, c.customers, c.payments, c.refunds)
    requires id in c.customers
    ensures RefundsAgree(RefundsRenamed(t.refunds, t.payments, id, row), c.customers[id := row], c.payments, c.refunds)
  {
  }

  lemma CustomerUpdatedKeeps(t: Tables, c: Core, id: Id, row: Customer)
    requires Agrees(t, c) && id in c.customers
    ensures Agrees(OnCustomerUpdated(t, id, row), c.(customers := c.customers[id := row]))
  {
    var after := Renamed(t.customers, id, row);
    assert CustomersAgree(after, c.customers[id := row], c.payments) by {
      forall i | i in after ensures after[i] == CustomerView(c.customers[id := row][i], i, c.payments) {}
    }
    RenamedPaymentsJoin(t, c, id, row);
    RenamedRefundsJoin(t, c, id, row);
  }

  lemma CustomerDeletedKeeps(t: Tables, c: Core, id: Id)
    requires Agrees(t, c) && RowsSane(c)
    requires forall p :: p in c.payments ==> c.payments[p].customerId != id
    ensures Agrees(OnCustomerDeleted(t, id), c.(customers := c.customers - {id}))
  {
    var customers := c.customers - {id};
    assert PaymentsAgree(t.payments, customers, c.payments) by { DeletionJoins(t, c, id); }
    assert RefundsAgree(t.refunds, customers, c.payments, c.refunds) by { DeletionJoins(t, c, id); }
    assert CustomersAgree(t.customers - {id}, customers, c.payments);
  }

  lemma DeletionJoins(t: Tables, c: Core, id: Id)
    requires Agrees(t, c) && RowsSane(c)
    requires forall p :: p in c.payments ==> c.payments[p].customerId != id
    ensures PaymentsAgree(t.payments, c.customers - {id}, c.payments)
    ensures RefundsAgree(t.refunds, c.customers - {id}, c.payments, c.refunds)
  {
  }

  /** Every refund row's payment exists. */
  ghost predicate RefundsInPlace(c: Core) {
    forall r :: r in c.refunds ==> c.refunds[r].paymentId in c.payments
  }

  lemma PaymentInsertedAgrees(t: Tables, c: Core, p: Id, row: Payment)
    requires PaymentsAgree(t.payments, c.customers, c.payments) && CustomersAgree(t.customers, c.customers, c.payments)
    requires p !in c.payments && row.status == Created
    ensures PaymentsAgree(PaymentInserted(t.payments, t.customers, p, row), c.customers, c.payments[p := row])
  {
  }

  lemma PaymentCreatedKeeps(t: Tables, c: Core, p: Id, row: Payment)
    requires Agrees(t, c) && RefundsInPlace(c) && p !in c.payments && row.status == Created
    ensures Agrees(OnPaymentCreated(t, p, row), c.(payments := c.payments[p := row]))
  {
    var u, payments := OnPaymentCreated(t, p, row), c.payments[p := row];
    assert PaymentsAgree(u.payments, c.customers, payments) by { PaymentInsertedAgrees(t, c, p, row); }
    assert DailyAgrees(u.daily, payments) by { DailyAfterCreated(t.daily, c.payments, p, row); }
    assert MethodsAgree(u.methods, payments) by { MethodsAfterCreated(t.methods, c.payments, p, row); }
    assert CustomersAgree(u.customers, c.customers, payments) by {
      CustomersAfterCreated(t.customers, c.customers, c.payments, p, row);
    }
    assert RefundsAgree(u.refunds, c.customers, payments, c.refunds) by {
      RefundsUnmoved(t.refunds, c.customers, c.payments, c.refunds, p, row);
    }
  }

  /** A status event, or the update event, as the registry handles it. */
  function OnPaymentMoved(t: Tables, p: Id, row: Payment, from: Status): Tables {
    t.(payments := if row.status == from || row.status == Settled then t.payments else SetStatus(t.payments, p, row.status),
       daily := DailyMoved(t.daily, row, from), methods := MethodsMoved(t.methods, row, from),
       customers := if row.status == Captured && from != Captured then Spend(t.customers, row.customerId, row.amount)
                    else t.customers)
  }

  lemma PaymentsAfterMove(read: map<Id, ReadPayment>, customers: map<Id, Customer>, payments: map<Id, Payment>,
                          p: Id, row: Payment)
    requires PaymentsAgree(read, customers, payments) && p in payments && SameScopes(row, payments[p])
    ensures PaymentsAgree(SetStatus(read, p, Shown(row.status)), customers, payments[p := row])
  {
  }

  lemma MoveShown(read: map<Id, ReadPayment>, customers: map<Id, Customer>, payments: map<Id, Payment>,
                  p: Id, row: Payment)
    requires PaymentsAgree(read, customers, payments) && p in payments && Edge(payments[p].status, row.status)
    ensures SetStatus(read, p, Shown(row.status)) ==
      if row.status == payments[p].status || row.status == Settled then read else SetStatus(read, p, row.status)
  {
  }

  /** A rewrite of a row by a status change: only a paid payment may have refunds. */
  predicate Moves(was: Payment, row: Payment) {
    && SameScopes(row, was) && Edge(was.status, row.status) && row.amountRefunded == was.amountRefunded
    && (row.amountRefunded != 0 ==> Succeeded(was.status))
  }

  lemma CustomersAfterMove(t: Tables, c: Core, p: Id, row: Payment)
    requires CustomersAgree(t.customers, c.customers, c.payments) && p in c.payments && Moves(c.payments[p], row)
    ensures CustomersAgree(OnPaymentMoved(t, p, row, c.payments[p].status).customers, c.customers, c.payments[p := row])
  {
    if row.status == Captured && c.payments[p].status != Captured {
      CustomersAfterWrite(t.customers, c.customers, c.payments, p, row, row.amount);
    } else {
      CustomersAfterWrite(t.customers, c.customers, c.payments, p, row, 0);
      NothingSpent(t.customers, row.customerId);
    }
  }

  lemma PaymentMovedKeeps(t: Tables, c: Core, p: Id, row: Payment)
    requires Agrees(t, c) && RefundsInPlace(c) && p in c.payments && Moves(c.payments[p], row)
    ensures Agrees(OnPaymentMoved(t, p, row, c.payments[p].status), c.(payments := c.payments[p := row]))
  {
    var u, payments := OnPaymentMoved(t, p, row, c.payments[p].status), c.payments[p := row];
    assert PaymentsAgree(u.payments, c.customers, payments) by {
      PaymentsAfterMove(t.payments, c.customers, c.payments, p, row);
      MoveShown(t.payments, c.customers, c.payments, p, row);
    }
    assert DailyAgrees(u.daily, payments) by { DailyAfterMove(t.daily, c.payments, p, row); }
    assert MethodsAgree(u.methods, payments) by { MethodsAfterMove(t.methods, c.payments, p, row); }
    assert CustomersAgree(u.customers, c.customers, payments) by { CustomersAfterMove(t, c, p, row); }
    assert RefundsAgree(u.refunds, c.customers, payments, c.refunds) by {
      RefundsUnmoved(t.refunds, c.customers, c.payments, c.refunds, p, row);
    }
  }

  /** A rewrite of a row by a refund of `amount`. */
  predicate Reserves(was: Payment, row: Payment, amount: Cents) {
    row == was.(amountRefunded := was.amountRefunded + amount) && Succeeded(was.status)
  }

  lemma RefundInsertedAgrees(t: Tables, c: Core, r: Id, refund: Refund)
    requires PaymentsAgree(t.payments, c.customers, c.payments)
    requires RefundsAgree(t.refunds, c.customers, c.payments, c.refunds)
    requires r !in c.refunds
    ensures RefundsAgree(RefundInserted(t.refunds, t.payments, r, refund), c.customers, c.payments, c.refunds[r := refund])
  {
  }

  lemma RefundsAfterRefund(t: Tables, c: Core, r: Id, refund: Refund, row: Payment)
    requires Agrees(t, c) && RefundsInPlace(c) && r !in c.refunds
    requires refund.paymentId in c.payments && Reserves(c.payments[refund.paymentId], row, refund.amount)
    ensures PaymentsAgree(t.payments, c.customers, c.payments[refund.paymentId := row])
    ensures RefundsAgree(RefundInserted(t.refunds, t.payments, r, refund), c.customers,
                         c.payments[refund.paymentId := row], c.refunds[r := refund])
  {
    var p := refund.paymentId;
    PaymentsAfterMove(t.payments, c.customers, c.payments, p, row);
    MoveShown(t.payments, c.customers, c.payments, p, row);
    RefundsUnmoved(t.refunds, c.customers, c.payments, c.refunds, p, row);
    RefundInsertedAgrees(t, c.(payments := c.payments[p := row]), r, refund);
  }

  lemma CustomersAfterRefund(t: Tables, c: Core, refund: Refund, row: Payment)
    requires CustomersAgree(t.customers, c.customers, c.payments)
    requires refund.paymentId in c.payments && Reserves(c.payments[refund.paymentId], row, refund.amount)
    ensures CustomersAgree(Spend(t.customers, row.customerId, -refund.amount), c.customers,
                           c.payments[refund.paymentId := row])
  {
    CustomersAfterWrite(t.customers, c.customers, c.payments, refund.paymentId, row, -refund.amount);
  }

  lemma RefundInitiatedKeeps(t: Tables, c: Core, r: Id, refund: Refund, row: Payment)
    requires Agrees(t, c) && RefundsInPlace(c) && r !in c.refunds
    requires refund.paymentId in c.payments && Reserves(c.payments[refund.paymentId], row, refund.amount)
    ensures Agrees(OnRefundInitiated(t, r, refund, row.customerId),
                   c.(payments := c.payments[refund.paymentId := row], refunds := c.refunds[r := refund]))
  {
    RefundsAfterRefund(t, c, r, refund, row);
    AggregatesAfterRefund(t, c, refund, row);
    CustomersAfterRefund(t, c, refund, row);
  }

  lemma AggregatesAfterRefund(t: Tables, c: Core, refund: Refund, row: Payment)
    requires DailyAgrees(t.daily, c.payments) && MethodsAgree(t.methods, c.payments)
    requires refund.paymentId in c.payments && Reserves(c.payments[refund.paymentId], row, refund.amount)
    ensures DailyAgrees(DailyRefunded(t.daily, refund), c.payments[refund.paymentId := row])
    ensures MethodsAgree(t.methods, c.payments[refund.paymentId := row])
  {
    var p := refund.paymentId;
    DailyAfterMove(t.daily, c.payments, p, row);
    DailyRefundAgrees(t.daily, c.payments[p := row], refund);
    MethodsAfterMove(t.methods, c.payments, p, row);
  }

  lemma DailyRefundAgrees(daily: map<int, Daily>, payments: map<Id, Payment>, row: Refund)
    requires DailyAgrees(daily, payments)
    ensures DailyAgrees(DailyRefunded(daily, row), payments)
  {
  }

  lemma RefundProcessedKeeps(t: Tables, c: Core, r: Id, row: Refund)
    requires Agrees(t, c) && r in c.refunds && row.status == Processed
    requires row.paymentId == c.refunds[r].paymentId && row.amount == c.refunds[r].amount
    ensures Agrees(OnRefundProcessed(t, r), c.(refunds := c.refunds[r := row]))
  {
  }

  /** Agreement looks at nothing but customers, payments and refunds. */
  lemma AgreesFrame(t: Tables, c: Core, d: Core)
    requires Agrees(t, c) && d.customers == c.customers && d.payments == c.payments && d.refunds == c.refunds
    ensures Agrees(t, d)
  {
  }

  // ---------- From transactions to events ----------

  /** What a transaction on a payment row does to the tables, and the event it emits. */
  ghost predicate WritesPayment(c: Core, d: Core, e: Event, p: Id) {
    && p in d.payments && d.customers == c.customers && d.refunds == c.refunds
    && d.payments == c.payments[p := d.payments[p]]
    && e.PaymentEvent? && e.paymentId == p && e.payment == d.payments[p]
  }

  ghost predicate OpensPayment(c: Core, d: Core, e: Event, p: Id) {
    WritesPayment(c, d, e, p) && p !in c.payments && d.payments[p].status == Created && e.topic == OnCreated
  }

  predicate TopicFits(was: Status, status: Status, topic: PaymentTopic) {
    topic == if status == was then OnUpdated else TopicOf(status)
  }

  ghost predicate MovesPayment(c: Core, d: Core, e: Event, p: Id) {
    && WritesPayment(c, d, e, p) && p in c.payments && Moves(c.payments[p], d.payments[p])
    && TopicFits(c.payments[p].status, d.payments[p].status, e.topic)
  }

  ghost predicate IssuesRefund(c: Core, d: Core, e: Event, p: Id, r: Id) {
    && p in c.payments && p in d.payments && r !in c.refunds && r in d.refunds && d.customers == c.customers
    && var row, refund := d.payments[p], d.refunds[r];
    && d.payments == c.payments[p := row] && d.refunds == c.refunds[r := refund]
    && refund.paymentId == p && Reserves(c.payments[p], row, refund.amount)
    && e == RefundInitiated(r, refund, row.customerId)
  }

  ghost predicate ClosesRefund(c: Core, d: Core, e: Event, r: Id) {
    && d.customers == c.customers && d.payments == c.payments && r in c.refunds && r in d.refunds
    && var was, row := c.refunds[r], d.refunds[r];
    && d.refunds == c.refunds[r := row] && row.status == Processed
    && row.paymentId == was.paymentId && row.amount == was.amount && e == RefundProcessed(r, row)
  }

  lemma RowsInPlace(c: Core)
    requires RowsSane(c)
    ensures RefundsInPlace(c)
  {
  }

  lemma OpeningEffect(c: Core, command: Command, now: Time, d: Core, e: Event)
    requires RowsSane(c) && EffectOf(c, command, now) == Does(d, e) && command.CreatePayment?
    ensures OpensPayment(c, d, e, command.paymentId)
  {
  }

  lemma MovingEffect(c: Core, command: Command, now: Time, d: Core, e: Event)
    requires RowsSane(c) && EffectOf(c, command, now) == Does(d, e) && (command.TransitionPayment? || command.UpdatePayment?)
    ensures MovesPayment(c, d, e, command.paymentId)
  {
  }

  lemma IssuingEffect(c: Core, command: Command, now: Time, d: Core, e: Event)
    requires RowsSane(c) && EffectOf(c, command, now) == Does(d, e) && command.CreateRefund?
    ensures IssuesRefund(c, d, e, command.paymentId, command.refundId)
  {
  }

  lemma ClosingEffect(c: Core, command: Command, now: Time, d: Core, e: Event)
    requires EffectOf(c, command, now) == Does(d, e) && command.ProcessRefund?
    ensures ClosesRefund(c, d, e, command.refundId)
  {
  }

  lemma ApplyOpening(t: Tables, e: Event)
    requires e.PaymentEvent? && e.topic == OnCreated
    ensures Apply(t, e) == OnPaymentCreated(t, e.paymentId, e.payment)
  {
  }

  lemma OpeningStep(t: Tables, c: Core, d: Core, e: Event, p: Id)
    requires Agrees(t, c) && RefundsInPlace(c) && OpensPayment(c, d, e, p)
    ensures Agrees(Apply(t, e), d)
  {
    var c2 := c.(payments := c.payments[p := d.payments[p]]);
    ApplyOpening(t, e);
    PaymentCreatedKeeps(t, c, p, d.payments[p]);
    AgreesFrame(Apply(t, e), c2, d);
  }

  lemma MoveHandled(t: Tables, p: Id, row: Payment, from: Status, topic: PaymentTopic)
    requires TopicFits(from, row.status, topic) && Edge(from, row.status)
    ensures Apply(t, PaymentEvent(topic, p, row)) == OnPaymentMoved(t, p, row, from)
  {
  }

  lemma MovingStep(t: Tables, c: Core, d: Core, e: Event, p: Id)
    requires Agrees(t, c) && RefundsInPlace(c) && MovesPayment(c, d, e, p)
    ensures Agrees(Apply(t, e), d)
  {
    var c2 := c.(payments := c.payments[p := d.payments[p]]);
    MoveHandled(t, p, d.payments[p], c.payments[p].status, e.topic);
    PaymentMovedKeeps(t, c, p, d.payments[p]);
    AgreesFrame(Apply(t, e), c2, d);
  }

  lemma IssuingStep(t: Tables, c: Core, d: Core, e: Event, p: Id, r: Id)
    requires Agrees(t, c) && RefundsInPlace(c) && IssuesRefund(c, d, e, p, r)
    ensures Agrees(Apply(t, e), d)
  {
    var row, refund := d.payments[p], d.refunds[r];
    var c2 := c.(payments := c.payments[p := row], refunds := c.refunds[r := refund]);
    RefundInitiatedKeeps(t, c, r, refund, row);
    ApplyIssuing(t, r, refund, row.customerId);
    AgreesFrame(Apply(t, e), c2, d);
  }

  lemma ApplyIssuing(t: Tables, r: Id, refund: Refund, customerId: Id)
    ensures Apply(t, RefundInitiated(r, refund, customerId)) == OnRefundInitiated(t, r, refund, customerId)
  {
  }

  lemma ClosingStep(t: Tables, c: Core, d: Core, e: Event, r: Id)
    requires Agrees(t, c) && ClosesRefund(c, d, e, r)
    ensures Agrees(Apply(t, e), d)
  {
    RefundProcessedKeeps(t, c, r, d.refunds[r]);
    AgreesFrame(Apply(t, e), c.(refunds := c.refunds[r := d.refunds[r]]), d);
  }

  /** What a transaction on a customer row does. */
  ghost predicate WritesCustomer(c: Core, d: Core, e: Event, id: Id) {
    && d.payments == c.payments && d.refunds == c.refunds
    && match e
       case CustomerCreated(x, row) => x == id && id !in c.customers && d.customers == c.customers[id := row]
       case CustomerUpdated(x, row) => x == id && id in c.customers && d.customers == c.customers[id := row]
       case CustomerDeleted(x) =>
         x == id && d.customers == c.customers - {id} && forall p :: p in c.payments ==> c.payments[p].customerId != id
       case _ => false
  }

  lemma CustomerWriting(c: Core, command: Command, now: Time, d: Core, e: Event)
    requires EffectOf(c, command, now) == Does(d, e)
    requires command.CreateCustomer? || command.UpdateCustomer? || command.DeleteCustomer?
    ensures WritesCustomer(c, d, e, command.customerId)
  {
  }

  lemma CustomerStep(t: Tables, c: Core, d: Core, e: Event, id: Id)
    requires Agrees(t, c) && RowsSane(c) && WritesCustomer(c, d, e, id)
    ensures Agrees(Apply(t, e), d)
  {
    match e
    case CustomerCreated(_, row) =>
      CustomerCreatedKeeps(t, c, id, row);
      AgreesFrame(Apply(t, e), c.(customers := c.customers[id := row]), d);
    case CustomerUpdated(_, row) =>
      CustomerUpdatedKeeps(t, c, id, row);
      AgreesFrame(Apply(t, e), c.(customers := c.customers[id := row]), d);
    case CustomerDeleted(_) =>
      CustomerDeletedKeeps(t, c, id);
      AgreesFrame(Apply(t, e), c.(customers := c.customers - {id}), d);
  }

  lemma MerchantStep(t: Tables, c: Core, command: Command, now: Time, d: Core, e: Event)
    requires Agrees(t, c) && EffectOf(c, command, now) == Does(d, e) && command.UpdateMerchant?
    ensures Agrees(Apply(t, e), d)
  {
    AgreesFrame(t, c, d);
  }

  /** The heart of the pipeline: the event a transaction emits is exactly what the read side needs. */
  lemma ApplyKeeps(t: Tables, c: Core, command: Command, now: Time, d: Core, e: Event)
    requires Agrees(t, c) && RowsSane(c) && EffectOf(c, command, now) == Does(d, e)
    ensures Agrees(Apply(t, e), d)
  {
    RowsInPlace(c);
    if command.CreatePayment? {
      OpeningEffect(c, command, now, d, e);
      OpeningStep(t, c, d, e, command.paymentId);
    } else if command.TransitionPayment? || command.UpdatePayment? {
      MovingEffect(c, command, now, d, e);
      MovingStep(t, c, d, e, command.paymentId);
    } else if command.CreateRefund? {
      IssuingEffect(c, command, now, d, e);
      IssuingStep(t, c, d, e, command.paymentId, command.refundId);
    } else if command.ProcessRefund? {
      ClosingEffect(c, command, now, d, e);
      ClosingStep(t, c, d, e, command.refundId);
    } else if command.UpdateMerchant? {
      MerchantStep(t, c, command, now, d, e);
    } else {
      CustomerWriting(c, command, now, d, e);
      CustomerStep(t, c, d, e, command.customerId);
    }
  }
}
