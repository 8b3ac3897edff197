/** What the write tables hold, told from the accepted commands alone, and which commands are accepted. */
module CommandLaws {
  import opened Domain
  import opened Aggregates
  import opened CoreTables
  import opened CoreInvariants

  /** The transactions of a history that were committed. */
  function Log(start: Core, history: seq<Tx>): seq<Tx> {
    if history == [] then []
    else
      var before, tx := history[..|history| - 1], history[|history| - 1];
      Log(start, before) + (if Execute(Run(start, before), tx).Ok? then [tx] else [])
  }

  // ---------- One refund, one payment ----------

  /** An accepted refund books exactly the amount that was asked for: on the refund row, on its payment, on the
      ledger; and it changes nothing else. */
  lemma RefundBooksAmount(c: Core, r: Id, p: Id, amount: Cents, e: Id, now: Time)
    requires Execute(c, Tx(CreateRefund(r, p, amount), e, now)).Ok?
    ensures var d := Execute(c, Tx(CreateRefund(r, p, amount), e, now)).core;
      && r !in c.refunds && d.refunds.Keys == c.refunds.Keys + {r}
      && d.refunds[r].amount == amount && d.refunds[r].paymentId == p
      && p in c.payments && d.payments.Keys == c.payments.Keys
      && d.payments[p].amount - d.payments[p].amountRefunded == c.payments[p].amount - c.payments[p].amountRefunded - amount
      && d.payments[p].amount == c.payments[p].amount
      && LedgerSum(d.ledger) == LedgerSum(c.ledger) - amount
      && (forall q :: q in c.payments && q != p ==> d.payments[q] == c.payments[q])
      && (forall q :: q in c.refunds ==> d.refunds[q] == c.refunds[q])
      && d.customers == c.customers && d.profile == c.profile
  {
    var d := Execute(c, Tx(CreateRefund(r, p, amount), e, now)).core;
    LedgerAppend(c.ledger, d.ledger[|c.ledger|]);
  }

  /** An accepted payment is the one that was asked for. */
  lemma PaymentBooksAmount(c: Core, p: Id, customerId: Id, amount: Cents, via: string, e: Id, now: Time)
    requires Execute(c, Tx(CreatePayment(p, customerId, amount, via), e, now)).Ok?
    ensures var d := Execute(c, Tx(CreatePayment(p, customerId, amount, via), e, now)).core;
      && p !in c.payments && d.payments.Keys == c.payments.Keys + {p}
      && d.payments[p].amount == amount && d.payments[p].customerId == customerId && d.payments[p].via == via
      && d.payments[p].amountRefunded == 0
      && LedgerSum(d.ledger) == LedgerSum(c.ledger) + amount
      && (forall q :: q in c.payments ==> d.payments[q] == c.payments[q])
      && d.refunds == c.refunds && d.customers == c.customers && d.profile == c.profile
  {
    var d := Execute(c, Tx(CreatePayment(p, customerId, amount, via), e, now)).core;
    LedgerAppend(c.ledger, d.ledger[|c.ledger|]);
  }

  // ---------- The columns of a payment, asked for one by one ----------

  /** The command that created the payment. */
  function Creation(log: seq<Tx>, p: Id): Option<Tx> {
    if log == [] then None
    else
      var last := log[|log| - 1];
      if last.command.CreatePayment? && last.command.paymentId == p then Some(last) else Creation(log[..|log| - 1], p)
  }

  /** The amounts of its refunds, added up. */
  function RefundsAsked(log: seq<Tx>, p: Id): Cents {
    if log == [] then 0
    else
      var last := log[|log| - 1].command;
      RefundsAsked(log[..|log| - 1], p) + (if last.CreateRefund? && last.paymentId == p then last.amount else 0)
  }

  /** The target of its last transition. */
  function StatusAsked(log: seq<Tx>, p: Id): Status {
    if log == [] then Created
    else
      var last := log[|log| - 1].command;
      if last.TransitionPayment? && last.paymentId == p then last.target else StatusAsked(log[..|log| - 1], p)
  }

  predicate Touches(command: Command, p: Id) {
    (command.CreatePayment? || command.TransitionPayment? || command.UpdatePayment?) && command.paymentId == p
  }

  /** The time of the last command that created, moved or updated it. */
  function TouchedAt(log: seq<Tx>, p: Id): Time {
    if log == [] then 0
    else if Touches(log[|log| - 1].command, p) then log[|log| - 1].now
    else TouchedAt(log[..|log| - 1], p)
  }

  ghost predicate PaymentAsAsked(payments: map<Id, Payment>, log: seq<Tx>, p: Id) {
    && (p in payments <==> Creation(log, p).Some?)
    && (p !in payments ==> RefundsAsked(log, p) == 0 && StatusAsked(log, p) == Created)
    && (p in payments ==>
         var row, asked := payments[p], Creation(log, p).value;
         && asked.command.CreatePayment?
         && row.customerId == asked.command.customerId && row.amount == asked.command.amount
         && row.via == asked.command.via && row.createdAt == asked.now
         && row.amountRefunded == RefundsAsked(log, p)
         && row.status == StatusAsked(log, p) && row.updatedAt == TouchedAt(log, p))
  }

  lemma PaymentStep(c: Core, tx: Tx, d: Core, p: Id)
    requires Execute(c, tx) == Ok(d)
    ensures var k := tx.command;
      && (p in d.payments <==> p in c.payments || (k.CreatePayment? && k.paymentId == p))
      && (k.CreatePayment? && k.paymentId == p ==>
           p !in c.payments && d.payments[p] == Payment(k.customerId, k.amount, Created, k.via, 0, tx.now, tx.now))
      && (p !in c.payments ==> !(k.CreateRefund? && k.paymentId == p) && !(k.TransitionPayment? && k.paymentId == p))
      && (p in c.payments ==> p in d.payments && d.payments[p] == c.payments[p].(
           amountRefunded := c.payments[p].amountRefunded + (if k.CreateRefund? && k.paymentId == p then k.amount else 0),
           status := if k.TransitionPayment? && k.paymentId == p then k.target else c.payments[p].status,
           updatedAt := if Touches(k, p) then tx.now else c.payments[p].updatedAt))
  {
  }

  lemma {:induction false} PaymentLogged(c: Core, tx: Tx, d: Core, log: seq<Tx>, p: Id)
    requires Execute(c, tx) == Ok(d) && PaymentAsAsked(c.payments, log, p)
    ensures PaymentAsAsked(d.payments, log + [tx], p)
  {
    PaymentStep(c, tx, d, p);
    assert (log + [tx])[..|log|] == log;
  }

  /** In every reachable state every payment is, column by column, what the accepted commands asked for. */
  lemma {:induction false} PaymentsAreAsAsked(profile: Profile, eventId: Id, now: Time, history: seq<Tx>, p: Id)
    ensures var start := Genesis(profile, eventId, now);
      PaymentAsAsked(Run(start, history).payments, Log(start, history), p)
  {
    var start := Genesis(profile, eventId, now);
    if history != [] {
      var before, tx := history[..|history| - 1], history[|history| - 1];
      PaymentsAreAsAsked(profile, eventId, now, before, p);
      var c := Run(start, before);
      if Execute(c, tx).Ok? {
        PaymentLogged(c, tx, Execute(c, tx).core, Log(start, before), p);
      } else {
        assert Log(start, history) == Log(start, before);
      }
    }
  }

  // ---------- Refunds ----------

  /** The command that created the refund. */
  function RefundCreation(log: seq<Tx>, r: Id): Option<Tx> {
    if log == [] then None
    else
      var last := log[|log| - 1];
      if last.command.CreateRefund? && last.command.refundId == r then Some(last) else RefundCreation(log[..|log| - 1], r)
  }

  /** The command that processed it. */
  function Processing(log: seq<Tx>, r: Id): Option<Tx> {
    if log == [] then None
    else
      var last := log[|log| - 1];
      if last.command.ProcessRefund? && last.command.refundId == r then Some(last) else Processing(log[..|log| - 1], r)
  }

  ghost predicate RefundAsAsked(refunds: map<Id, Refund>, log: seq<Tx>, r: Id) {
    && (r in refunds <==> RefundCreation(log, r).Some?)
    && (r !in refunds ==> Processing(log, r) == None)
    && (r in refunds ==>
         var row, asked, done := refunds[r], RefundCreation(log, r).value, Processing(log, r);
         && asked.command.CreateRefund?
         && row.paymentId == asked.command.paymentId && row.amount == asked.command.amount && row.createdAt == asked.now
         && row.status == (if done.Some? then Processed else Initiated)
         && row.updatedAt == if done.Some? then done.value.now else asked.now)
  }

  lemma RefundStep(c: Core, tx: Tx, d: Core, r: Id)
    requires Execute(c, tx) == Ok(d)
    ensures var k := tx.command;
      && (r in d.refunds <==> r in c.refunds || (k.CreateRefund? && k.refundId == r))
      && (k.CreateRefund? && k.refundId == r ==>
           r !in c.refunds && d.refunds[r] == Refund(k.paymentId, k.amount, Initiated, tx.now, tx.now))
      && (k.ProcessRefund? && k.refundId == r ==>
           r in c.refunds && c.refunds[r].status == Initiated
             && d.refunds[r] == c.refunds[r].(status := Processed, updatedAt := tx.now))
      && (r in c.refunds && !(k.ProcessRefund? && k.refundId == r) ==> d.refunds[r] == c.refunds[r])
  {
  }

  lemma {:induction false} RefundLogged(c: Core, tx: Tx, d: Core, log: seq<Tx>, r: Id)
    requires Execute(c, tx) == Ok(d) && RefundAsAsked(c.refunds, log, r)
    ensures RefundAsAsked(d.refunds, log + [tx], r)
  {
    RefundStep(c, tx, d, r);
    assert (log + [tx])[..|log|] == log;
  }

  /** The same for every refund. */
  lemma {:induction false} RefundsAreAsAsked(profile: Profile, eventId: Id, now: Time, history: seq<Tx>, r: Id)
    ensures var start := Genesis(profile, eventId, now);
      RefundAsAsked(Run(start, history).refunds, Log(start, history), r)
  {
    var start := Genesis(profile, eventId, now);
    if history != [] {
      var before, tx := history[..|history| - 1], history[|history| - 1];
      RefundsAreAsAsked(profile, eventId, now, before, r);
      var c := Run(start, before);
      if Execute(c, tx).Ok? {
        RefundLogged(c, tx, Execute(c, tx).core, Log(start, before), r);
      } else {
        assert Log(start, history) == Log(start, before);
      }
    }
  }

  // ---------- Customers and the merchant ----------

  /** Whether the last command that created or deleted the customer created it. */
  function CustomerAsked(log: seq<Tx>, id: Id): bool {
    if log == [] then false
    else
      var last := log[|log| - 1].command;
      if last.CreateCustomer? && last.customerId == id then true
      else if last.DeleteCustomer? && last.customerId == id then false
      else CustomerAsked(log[..|log| - 1], id)
  }

  /** The name that was given last. */
  function NameAsked(log: seq<Tx>, id: Id): string {
    if log == [] then ""
    else
      var last := log[|log| - 1].command;
      if last.CreateCustomer? && last.customerId == id then last.name
      else if last.UpdateCustomer? && last.customerId == id && last.newName.Some? then last.newName.value
      else NameAsked(log[..|log| - 1], id)
  }

  /** The e-mail that was given last; a customer may be created without one. */
  function EmailAsked(log: seq<Tx>, id: Id): Option<string> {
    if log == [] then None
    else
      var last := log[|log| - 1].command;
      if last.CreateCustomer? && last.customerId == id then last.email
      else if last.UpdateCustomer? && last.customerId == id && last.newEmail.Some? then last.newEmail
      else EmailAsked(log[..|log| - 1], id)
  }

  ghost predicate CustomerAsAsked(customers: map<Id, Customer>, log: seq<Tx>, id: Id) {
    && (id in customers <==> CustomerAsked(log, id))
    && (id in customers ==> customers[id] == Customer(NameAsked(log, id), EmailAsked(log, id)))
  }

  predicate ForCustomer(command: Command, id: Id) {
    (command.CreateCustomer? || command.UpdateCustomer? || command.DeleteCustomer?) && command.customerId == id
  }

  lemma CustomerStep(c: Core, tx: Tx, d: Core, id: Id)
    requires Execute(c, tx) == Ok(d)
    ensures var k := tx.command;
      && (k.CreateCustomer? && k.customerId == id ==> id in d.customers && d.customers[id] == Customer(k.name, k.email))
      && (k.UpdateCustomer? && k.customerId == id ==>
           id in c.customers && id in d.customers
             && d.customers[id].name == (if k.newName.Some? then k.newName.value else c.customers[id].name)
             && d.customers[id].email == (if k.newEmail.Some? then k.newEmail else c.customers[id].email))
      && (k.DeleteCustomer? && k.customerId == id ==> id !in d.customers)
      && (!ForCustomer(k, id) ==>
           (id in d.customers <==> id in c.customers) && (id in c.customers ==> d.customers[id] == c.customers[id]))
  {
  }

  lemma {:induction false} CustomerLogged(c: Core, tx: Tx, d: Core, log: seq<Tx>, id: Id)
    requires Execute(c, tx) == Ok(d) && CustomerAsAsked(c.customers, log, id)
    ensures CustomerAsAsked(d.customers, log + [tx], id)
  {
    CustomerStep(c, tx, d, id);
    assert (log + [tx])[..|log|] == log;
  }

  /** Every customer is there if it was asked for last, with the name and e-mail that were given last. */
  lemma {:induction false} CustomersAreAsAsked(profile: Profile, eventId: Id, now: Time, history: seq<Tx>, id: Id)
    ensures var start := Genesis(profile, eventId, now);
      CustomerAsAsked(Run(start, history).customers, Log(start, history), id)
  {
    var start := Genesis(profile, eventId, now);
    if history != [] {
      var before, tx := history[..|history| - 1], history[|history| - 1];
      CustomersAreAsAsked(profile, eventId, now, before, id);
      var c := Run(start, before);
      if Execute(c, tx).Ok? {
        CustomerLogged(c, tx, Execute(c, tx).core, Log(start, before), id);
      } else {
        assert Log(start, history) == Log(start, before);
      }
    }
  }

  /** The merchant's columns: each the value given last, or the one of its creation. */
  function ProfileAsked(log: seq<Tx>, first: Profile): Profile {
    if log == [] then first
    else
      var last, before := log[|log| - 1].command, ProfileAsked(log[..|log| - 1], first);
      if !last.UpdateMerchant? then before
      else
        Profile(if last.newName.Some? then last.newName.value else before.name,
                if last.newEmail.Some? then last.newEmail.value else before.email,
                if last.newStatus.Some? then last.newStatus.value else before.status)
  }

  lemma ProfileStep(c: Core, tx: Tx, d: Core)
    requires Execute(c, tx) == Ok(d)
    ensures !tx.command.UpdateMerchant? ==> d.profile == c.profile
    ensures var k := tx.command; k.UpdateMerchant? ==>
      && d.profile.name == (if k.newName.Some? then k.newName.value else c.profile.name)
      && d.profile.email == (if k.newEmail.Some? then k.newEmail.value else c.profile.email)
      && d.profile.status == (if k.newStatus.Some? then k.newStatus.value else c.profile.status)
  {
  }

  lemma {:induction false} ProfileIsAsAsked(profile: Profile, eventId: Id, now: Time, history: seq<Tx>)
    ensures var start := Genesis(profile, eventId, now);
      Run(start, history).profile == ProfileAsked(Log(start, history), profile)
  {
    var start := Genesis(profile, eventId, now);
    if history != [] {
      var before, tx := history[..|history| - 1], history[|history| - 1];
      ProfileIsAsAsked(profile, eventId, now, before);
      var c := Run(start, before);
      if Execute(c, tx).Ok? {
        ProfileStep(c, tx, Execute(c, tx).core);
        assert Log(start, history)[..|Log(start, before)|] == Log(start, before);
      } else {
        assert Log(start, history) == Log(start, before);
      }
    }
  }

  // ---------- The ledger ----------

  /** What one command adds to the ledger's balance. */
  function Books(log: seq<Tx>, command: Command): Cents {
    match command
    case CreatePayment(_, _, amount, _) => amount
    case TransitionPayment(p, target) =>
      var asked := Creation(log, p);
      if target == Captured && asked.Some? && asked.value.command.CreatePayment? then asked.value.command.amount else 0
    case CreateRefund(_, _, amount) => -amount
    case _ => 0
  }

  function Booked(log: seq<Tx>): Cents {
    if log == [] then 0 else Booked(log[..|log| - 1]) + Books(log[..|log| - 1], log[|log| - 1].command)
  }

  /** The same for one command, in terms of the payments it finds. */
  function Adds(c: Core, command: Command): Cents {
    match command
    case CreatePayment(_, _, amount, _) => amount
    case TransitionPayment(p, target) => if target == Captured && p in c.payments then c.payments[p].amount else 0
    case CreateRefund(_, _, amount) => -amount
    case _ => 0
  }

  lemma LedgerSame(c: Core, tx: Tx, d: Core)
    requires Execute(c, tx) == Ok(d) && !tx.command.CreatePayment? && !tx.command.CreateRefund?
    requires tx.command.TransitionPayment? ==> tx.command.target != Captured
    ensures d.ledger == c.ledger
  {
  }

  lemma LedgerCaptured(c: Core, p: Id, e: Id, now: Time, d: Core)
    requires Execute(c, Tx(TransitionPayment(p, Captured), e, now)) == Ok(d)
    ensures p in c.payments && LedgerSum(d.ledger) == LedgerSum(c.ledger) + c.payments[p].amount
  {
    LedgerAppend(c.ledger, LedgerEntry(p, None, PaymentCapturedEntry, c.payments[p].amount, LedgerSum(c.ledger)));
  }

  lemma LedgerStep(c: Core, tx: Tx, d: Core)
    requires Execute(c, tx) == Ok(d)
    ensures LedgerSum(d.ledger) == LedgerSum(c.ledger) + Adds(c, tx.command)
  {
    match tx.command
    case CreatePayment(p, customerId, amount, via) => PaymentBooksAmount(c, p, customerId, amount, via, tx.eventId, tx.now);
    case CreateRefund(r, p, amount) => RefundBooksAmount(c, r, p, amount, tx.eventId, tx.now);
    case TransitionPayment(p, target) =>
      if target == Captured { LedgerCaptured(c, p, tx.eventId, tx.now, d); } else { LedgerSame(c, tx, d); }
    case _ => LedgerSame(c, tx, d);
  }

  /** The balance is what the accepted commands booked. */
  lemma {:induction false} LedgerIsAsAsked(profile: Profile, eventId: Id, now: Time, history: seq<Tx>)
    ensures var start := Genesis(profile, eventId, now);
      LedgerSum(Run(start, history).ledger) == Booked(Log(start, history))
  {
    var start := Genesis(profile, eventId, now);
    if history != [] {
      var before, tx := history[..|history| - 1], history[|history| - 1];
      LedgerIsAsAsked(profile, eventId, now, before);
      var c := Run(start, before);
      if Execute(c, tx).Ok? {
        LedgerStep(c, tx, Execute(c, tx).core);
        assert Log(start, history)[..|Log(start, before)|] == Log(start, before);
        if tx.command.TransitionPayment? { PaymentsAreAsAsked(profile, eventId, now, before, tx.command.paymentId); }
      } else {
        assert Log(start, history) == Log(start, before);
      }
    }
  }

  /** The rows that one command adds, each with the balance as the code means it: a capture leaves itself out. */
  function EntriesAsked(log: seq<Tx>, command: Command): seq<LedgerEntry> {
    match command
    case CreatePayment(p, _, amount, _) => [LedgerEntry(p, None, PaymentCreatedEntry, amount, Booked(log) + amount)]
    case TransitionPayment(p, target) =>
      if target == Captured then [LedgerEntry(p, None, PaymentCapturedEntry, AmountAsked(log, p), Booked(log))] else []
    case CreateRefund(r, p, amount) => [LedgerEntry(p, Some(r), RefundIssuedEntry, amount, Booked(log) - amount)]
    case _ => []
  }

  function LedgerAsked(log: seq<Tx>): seq<LedgerEntry> {
    if log == [] then []
    else LedgerAsked(log[..|log| - 1]) + EntriesAsked(log[..|log| - 1], log[|log| - 1].command)
  }

  lemma {:induction false} RowsCaptured(c: Core, p: Id, e: Id, now: Time, d: Core, log: seq<Tx>)
    requires Execute(c, Tx(TransitionPayment(p, Captured), e, now)) == Ok(d)
    requires LedgerSum(c.ledger) == Booked(log) && PaymentAsAsked(c.payments, log, p)
    ensures d.ledger == c.ledger + EntriesAsked(log, TransitionPayment(p, Captured))
  {
  }

  lemma {:induction false} RowsCreated(c: Core, tx: Tx, d: Core, log: seq<Tx>)
    requires Execute(c, tx) == Ok(d) && (tx.command.CreatePayment? || tx.command.CreateRefund?)
    requires LedgerSum(c.ledger) == Booked(log)
    ensures d.ledger == c.ledger + EntriesAsked(log, tx.command)
  {
  }

  lemma {:induction false} RowsStep(c: Core, tx: Tx, d: Core, log: seq<Tx>)
    requires Execute(c, tx) == Ok(d) && LedgerSum(c.ledger) == Booked(log)
    requires tx.command.TransitionPayment? ==> PaymentAsAsked(c.payments, log, tx.command.paymentId)
    ensures d.ledger == c.ledger + EntriesAsked(log, tx.command)
  {
    match tx.command
    case CreatePayment(_, _, _, _) => RowsCreated(c, tx, d, log);
    case CreateRefund(_, _, _) => RowsCreated(c, tx, d, log);
    case TransitionPayment(p, target) =>
      if target == Captured { RowsCaptured(c, p, tx.eventId, tx.now, d, log); } else { LedgerSame(c, tx, d); }
    case _ => LedgerSame(c, tx, d);
  }

  /** The ledger is, row by row, what the accepted commands booked. */
  lemma {:induction false} LedgerRowsAreAsAsked(profile: Profile, eventId: Id, now: Time, history: seq<Tx>)
    ensures var start := Genesis(profile, eventId, now);
      Run(start, history).ledger == LedgerAsked(Log(start, history))
  {
    var start := Genesis(profile, eventId, now);
    if history != [] {
      var before, tx := history[..|history| - 1], history[|history| - 1];
      LedgerRowsAreAsAsked(profile, eventId, now, before);
      var c := Run(start, before);
      if Execute(c, tx).Ok? {
        LedgerIsAsAsked(profile, eventId, now, before);
        if tx.command.TransitionPayment? { PaymentsAreAsAsked(profile, eventId, now, before, tx.command.paymentId); }
        RowsStep(c, tx, Execute(c, tx).core, Log(start, before));
        assert Log(start, history)[..|Log(start, before)|] == Log(start, before);
      } else {
        assert Log(start, history) == Log(start, before);
      }
    }
  }

  // ---------- The events ----------

  predicate TopicFor(target: Status, topic: PaymentTopic) {
    || (target == Authorized && topic == OnAuthorized) || (target == Captured && topic == OnCaptured)
    || (target == Settled && topic == OnSettled) || (target == Failed && topic == OnFailed)
  }

  /** The event of an accepted command carries the rows that the command left in the tables. */
  predicate Tells(command: Command, d: Core, e: Event) {
    match command
    case UpdateMerchant(_, _, _) => e == MerchantUpdated(d.profile)
    case CreateCustomer(id, _, _) => id in d.customers && e == CustomerCreated(id, d.customers[id])
    case UpdateCustomer(id, _, _) => id in d.customers && e == CustomerUpdated(id, d.customers[id])
    case DeleteCustomer(id) => id !in d.customers && e == CustomerDeleted(id)
    case CreatePayment(p, _, _, _) => p in d.payments && e == PaymentEvent(OnCreated, p, d.payments[p])
    case TransitionPayment(p, target) => (
      && p in d.payments && e.PaymentEvent? && TopicFor(target, e.topic)
      && e.paymentId == p && e.payment == d.payments[p])
    case UpdatePayment(p) => p in d.payments && e == PaymentEvent(OnUpdated, p, d.payments[p])
    case CreateRefund(r, p, _) => (
      r in d.refunds && p in d.payments && e == RefundInitiated(r, d.refunds[r], d.payments[p].customerId))
    case ProcessRefund(r) => r in d.refunds && e == RefundProcessed(r, d.refunds[r])
  }

  lemma EffectTells(c: Core, command: Command, now: Time, d: Core, e: Event)
    requires EffectOf(c, command, now) == Does(d, e)
    ensures Tells(command, d, e)
  {
  }

  lemma TellsOfRows(command: Command, d: Core, e: Event, more: seq<Record>)
    requires Tells(command, d, e)
    ensures Tells(command, d.(outbox := more), e)
  {
  }

  lemma {:induction false} EventTells(c: Core, tx: Tx, d: Core)
    requires Execute(c, tx) == Ok(d)
    ensures |d.outbox| == |c.outbox| + 1 && d.outbox[..|c.outbox|] == c.outbox
    ensures var last := d.outbox[|c.outbox|]; last == Record(tx.eventId, last.event, tx.now) && Tells(tx.command, d, last.event)
  {
    OneEventEach(c, tx, d);
    var Does(changed, e) := EffectOf(c, tx.command, tx.now);
    EffectTells(c, tx.command, tx.now, changed, e);
    TellsOfRows(tx.command, changed, e, d.outbox);
  }

  /** Rejected transactions leave no trace: the accepted ones alone lead to the same tables. */
  lemma {:induction false} LogReplays(start: Core, history: seq<Tx>)
    ensures Run(start, Log(start, history)) == Run(start, history)
  {
    if history != [] {
      var before, tx := history[..|history| - 1], history[|history| - 1];
      LogReplays(start, before);
      if Execute(Run(start, before), tx).Ok? {
        assert Log(start, history)[..|Log(start, before)|] == Log(start, before);
      } else {
        assert Log(start, history) == Log(start, before);
      }
    }
  }

  /** Event i + 1 of an outbox is that of the i-th accepted command, and shows the rows as that command left them. */
  ghost predicate TellsAt(start: Core, log: seq<Tx>, outbox: seq<Record>, i: nat)
    requires |outbox| == |log| + 1 && i < |log|
  {
    var r := outbox[i + 1];
    r.id == log[i].eventId && r.createdAt == log[i].now && Tells(log[i].command, Run(start, log[..i + 1]), r.event)
  }

  /** After every history the outbox is the created event and one event for each accepted command, in order. */
  lemma {:induction false} EventsTell(profile: Profile, eventId: Id, now: Time, history: seq<Tx>)
    ensures var start := Genesis(profile, eventId, now);
      var log, outbox := Log(start, history), Run(start, history).outbox;
      && |outbox| == |log| + 1 && outbox[0] == Record(eventId, MerchantCreated(profile), now)
      && forall i :: 0 <= i < |log| ==> TellsAt(start, log, outbox, i)
  {
    var start := Genesis(profile, eventId, now);
    if history != [] {
      var before, tx := history[..|history| - 1], history[|history| - 1];
      EventsTell(profile, eventId, now, before);
      var c := Run(start, before);
      if Execute(c, tx).Ok? {
        TellsNext(start, before, tx);
      } else {
        assert Log(start, history) == Log(start, before);
      }
    }
  }

  lemma {:induction false} TellsNext(start: Core, before: seq<Tx>, tx: Tx)
    requires var log, c := Log(start, before), Run(start, before);
      && |c.outbox| == |log| + 1 && Execute(c, tx).Ok?
      && forall i :: 0 <= i < |log| ==> TellsAt(start, log, c.outbox, i)
    ensures var log, d := Log(start, before + [tx]), Run(start, before + [tx]);
      && |d.outbox| == |log| + 1 && d.outbox[0] == Run(start, before).outbox[0]
      && forall i :: 0 <= i < |log| ==> TellsAt(start, log, d.outbox, i)
  {
    assert (before + [tx])[..|before|] == before;
    var log, more := Log(start, before), Log(start, before + [tx]);
    var c, d := Run(start, before), Run(start, before + [tx]);
    assert more == log + [tx];
    EventTells(c, tx, d);
    forall i | 0 <= i < |more| ensures TellsAt(start, more, d.outbox, i) {
      if i < |log| {
        assert TellsAt(start, log, c.outbox, i);
        assert more[..i + 1] == log[..i + 1] && d.outbox[i + 1] == d.outbox[..|c.outbox|][i + 1];
      } else {
        assert more[..i + 1] == more;
        LogReplays(start, before + [tx]);
      }
    }
  }

  // ---------- Which commands are accepted ----------

  predicate IsEdge(was: Status, target: Status) {
    || (was == Created && (target == Authorized || target == Failed))
    || (was == Authorized && target == Captured)
    || (was == Captured && target == Settled)
  }

  /** The amount a payment was created with. */
  function AmountAsked(log: seq<Tx>, p: Id): Cents {
    var asked := Creation(log, p);
    if asked.Some? && asked.value.command.CreatePayment? then asked.value.command.amount else 0
  }

  ghost predicate HasPayments(log: seq<Tx>, id: Id) {
    exists p: Id :: Creation(log, p).Some? && Creation(log, p).value.command.CreatePayment?
      && Creation(log, p).value.command.customerId == id
  }

  /** Decided from the commands accepted before. */
  ghost predicate Acceptable(log: seq<Tx>, command: Command) {
    match command
    case UpdateMerchant(_, _, _) => true
    case CreateCustomer(id, _, _) => !CustomerAsked(log, id)
    case UpdateCustomer(id, _, _) => CustomerAsked(log, id)
    case DeleteCustomer(id) => CustomerAsked(log, id) && !HasPayments(log, id)
    case CreatePayment(p, id, amount, _) => (
      && 0 < amount <= 999_999_999_999 && CustomerAsked(log, id) && Creation(log, p).None?
      && Booked(log) + amount <= 999_999_999_999)
    case TransitionPayment(p, target) => (
      && Creation(log, p).Some? && IsEdge(StatusAsked(log, p), target)
      && (target == Captured ==> Booked(log) <= 999_999_999_999))
    case UpdatePayment(p) => Creation(log, p).Some?
    case CreateRefund(r, p, amount) => (
      && Creation(log, p).Some? && (StatusAsked(log, p) == Captured || StatusAsked(log, p) == Settled)
      && 0 < amount <= AmountAsked(log, p) - RefundsAsked(log, p) && RefundCreation(log, r).None?
      && Booked(log) - amount <= 999_999_999_999)
    case ProcessRefund(r) => RefundCreation(log, r).Some? && Processing(log, r).None?
  }

  /** The guards, in terms of the tables. */
  ghost predicate Guards(c: Core, command: Command) {
    match command
    case UpdateMerchant(_, _, _) => true
    case CreateCustomer(id, _, _) => id !in c.customers
    case UpdateCustomer(id, _, _) => id in c.customers
    case DeleteCustomer(id) => id in c.customers && !exists p :: p in c.payments && c.payments[p].customerId == id
    case CreatePayment(p, id, amount, _) => (
      && 0 < amount <= 999_999_999_999 && id in c.customers && p !in c.payments
      && LedgerSum(c.ledger) + amount <= 999_999_999_999)
    case TransitionPayment(p, target) => (
      && p in c.payments && IsEdge(c.payments[p].status, target)
      && (target == Captured ==> LedgerSum(c.ledger) <= 999_999_999_999))
    case UpdatePayment(p) => p in c.payments
    case CreateRefund(r, p, amount) => (
      && p in c.payments && (c.payments[p].status == Captured || c.payments[p].status == Settled)
      && 0 < amount <= c.payments[p].amount - c.payments[p].amountRefunded && r !in c.refunds
      && LedgerSum(c.ledger) - amount <= 999_999_999_999)
    case ProcessRefund(r) => r in c.refunds && c.refunds[r].status == Initiated
  }

  lemma GuardsDecide(c: Core, command: Command, e: Id, at: Time)
    requires RowsSane(c) && e !in Ids(c.outbox)
    ensures Execute(c, Tx(command, e, at)).Ok? <==> Guards(c, command)
  {
    OutboxUntouched(c, command, at);
  }

  /** After every history a command with a fresh event id is accepted exactly if the commands accepted before
      allow it. */
  lemma {:induction false} AcceptedIff(profile: Profile, eventId: Id, now: Time, history: seq<Tx>, command: Command, e: Id, at: Time)
    requires e !in Ids(Run(Genesis(profile, eventId, now), history).outbox)
    ensures var start := Genesis(profile, eventId, now);
      Execute(Run(start, history), Tx(command, e, at)).Ok? <==> Acceptable(Log(start, history), command)
  {
    var start := Genesis(profile, eventId, now);
    var c, log := Run(start, history), Log(start, history);
    GenesisIsGood(profile, eventId, now);
    ReachableIsGood(start, history);
    GuardsDecide(c, command, e, at);
    LedgerIsAsAsked(profile, eventId, now, history);
    forall id: Id ensures CustomerAsAsked(c.customers, log, id) { CustomersAreAsAsked(profile, eventId, now, history, id); }
    forall p: Id ensures PaymentAsAsked(c.payments, log, p) { PaymentsAreAsAsked(profile, eventId, now, history, p); }
    forall r: Id ensures RefundAsAsked(c.refunds, log, r) { RefundsAreAsAsked(profile, eventId, now, history, r); }
    GuardsAsAsked(c, log, command);
  }

  ghost predicate AsAsked(c: Core, log: seq<Tx>) {
    && LedgerSum(c.ledger) == Booked(log)
    && (forall id: Id :: CustomerAsAsked(c.customers, log, id))
    && (forall p: Id :: PaymentAsAsked(c.payments, log, p))
    && (forall r: Id :: RefundAsAsked(c.refunds, log, r))
  }

  lemma {:induction false} GuardsAsAsked(c: Core, log: seq<Tx>, command: Command)
    requires AsAsked(c, log)
    ensures Guards(c, command) <==> Acceptable(log, command)
  {
    match command
    case DeleteCustomer(id) => DeletionAsAsked(c, log, id);
    case CreateCustomer(id, _, _) => assert CustomerAsAsked(c.customers, log, id);
    case UpdateCustomer(id, _, _) => assert CustomerAsAsked(c.customers, log, id);
    case CreatePayment(p, id, _, _) => assert CustomerAsAsked(c.customers, log, id) && PaymentAsAsked(c.payments, log, p);
    case TransitionPayment(p, _) => assert PaymentAsAsked(c.payments, log, p);
    case UpdatePayment(p) => assert PaymentAsAsked(c.payments, log, p);
    case CreateRefund(r, p, _) => assert PaymentAsAsked(c.payments, log, p) && RefundAsAsked(c.refunds, log, r);
    case ProcessRefund(r) => assert RefundAsAsked(c.refunds, log, r);
    case _ =>
  }

  lemma {:induction false} DeletionAsAsked(c: Core, log: seq<Tx>, id: Id)
    requires AsAsked(c, log)
    ensures id in c.customers <==> CustomerAsked(log, id)
    ensures (exists p :: p in c.payments && c.payments[p].customerId == id) <==> HasPayments(log, id)
  {
    assert CustomerAsAsked(c.customers, log, id);
    if p :| p in c.payments && c.payments[p].customerId == id {
      assert PaymentAsAsked(c.payments, log, p);
      assert HasPayments(log, id);
    }
    if HasPayments(log, id) {
      var p: Id :| Creation(log, p).Some? && Creation(log, p).value.command.CreatePayment?
        && Creation(log, p).value.command.customerId == id;
      assert PaymentAsAsked(c.payments, log, p);
    }
  }

  /** What a rejected refund is told, if its amount is a valid one. */
  lemma RefundRejections(c: Core, r: Id, p: Id, amount: Cents, e: Id, at: Time)
    requires 0 < amount <= 999_999_999_999
    ensures var o := Execute(c, Tx(CreateRefund(r, p, amount), e, at));
      && (p !in c.payments <==> o == Err(NotFound))
      && (p in c.payments ==>
           var row := c.payments[p];
           var remaining, open := row.amount - row.amountRefunded, row.status == Captured || row.status == Settled;
           && (!open <==> o == Err(InvalidStatus(row.status)))
           && (open && amount > remaining <==> o == Err(ExceedsRemaining(remaining))))
  {
  }

  /** What a rejected transition is told. */
  lemma TransitionRejections(c: Core, p: Id, target: Status, e: Id, at: Time)
    ensures var o := Execute(c, Tx(TransitionPayment(p, target), e, at));
      && (p !in c.payments <==> o == Err(NotFound))
      && (p in c.payments ==> (!IsEdge(c.payments[p].status, target) <==> o == Err(InvalidStatus(c.payments[p].status))))
  {
  }
}
