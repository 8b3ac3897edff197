/** One merchant's write-side tables and the transactions on them. */
module CoreTables {
  import opened Domain

  datatype EntryType = PaymentCreatedEntry | PaymentCapturedEntry | RefundIssuedEntry
  datatype LedgerEntry = LedgerEntry(paymentId: Id, refundId: Option<Id>, entryType: EntryType,
                                     amount: Cents, balanceAfter: Cents)

  datatype Core = Core(
    profile: Profile,
    customers: map<Id, Customer>,
    payments: map<Id, Payment>,
    refunds: map<Id, Refund>,
    ledger: seq<LedgerEntry>,
    outbox: seq<Record>)

  datatype Error =
    | InvalidAmount | NotFound | DuplicateKey | ForeignKeyViolation
    | InvalidStatus(current: Status) | NotInitiated | ExceedsRemaining(remaining: Cents) | NumericOverflow

  datatype Outcome = Ok(core: Core) | Err(error: Error)

  /** What the tables hold after a transaction: an error rolls everything back. */
  function After(before: Core, o: Outcome): Core {
    if o.Ok? then o.core else before
  }

  function Signed(e: LedgerEntry): Cents {
    if e.entryType == RefundIssuedEntry then -e.amount else e.amount
  }

  function LedgerSum(ledger: seq<LedgerEntry>): Cents {
    if ledger == [] then 0 else LedgerSum(ledger[..|ledger| - 1]) + Signed(ledger[|ledger| - 1])
  }

  function Allowed(s: Status): set<Status> {
    match s
    case Created => {Authorized, Failed}
    case Authorized => {Captured}
    case Captured => {Settled}
    case _ => {}
  }

  function TopicOf(s: Status): PaymentTopic {
    match s
    case Created => OnCreated
    case Authorized => OnAuthorized
    case Captured => OnCaptured
    case Settled => OnSettled
    case Failed => OnFailed
  }

  /** The outbox append at the end of a transaction; a repeated primary key aborts it. */
  function Emit(c: Core, eventId: Id, now: Time, e: Event): Outcome {
    if eventId in Ids(c.outbox) then Err(DuplicateKey)
    else Ok(c.(outbox := c.outbox + [Record(eventId, e, now)]))
  }

  datatype Command =
    | UpdateMerchant(newName: Option<string>, newEmail: Option<string>, newStatus: Option<string>)
    | CreateCustomer(customerId: Id, name: string, email: Option<string>)
    | UpdateCustomer(customerId: Id, newName: Option<string>, newEmail: Option<string>)
    | DeleteCustomer(customerId: Id)
    | CreatePayment(paymentId: Id, customerId: Id, amount: Cents, via: string)
    | TransitionPayment(paymentId: Id, target: Status)
    | UpdatePayment(paymentId: Id)
    | CreateRefund(refundId: Id, paymentId: Id, amount: Cents)
    | ProcessRefund(refundId: Id)

  /** A command together with what the clock and the id generator supplied for it. */
  datatype Tx = Tx(command: Command, eventId: Id, now: Time)

  /** What a transaction does to the tables before its event is appended, and that event. */
  datatype Effect = Does(core: Core, event: Event) | Fails(error: Error)

  function EffectOf(c: Core, command: Command, now: Time): Effect {
    match command
    case UpdateMerchant(name, email, status) =>
      var profile := Profile(Coalesce(name, c.profile.name), Coalesce(email, c.profile.email),
                             Coalesce(status, c.profile.status));
      Does(c.(profile := profile), MerchantUpdated(profile))
    case CreateCustomer(id, name, email) =>
      if id in c.customers then Fails(DuplicateKey)
      else
        var row := Customer(name, email);
        Does(c.(customers := c.customers[id := row]), CustomerCreated(id, row))
    case UpdateCustomer(id, name, email) =>
      if id !in c.customers then Fails(NotFound)
      else
        var row := Customer(Coalesce(name, c.customers[id].name),
                            if email.Some? then email else c.customers[id].email);
        Does(c.(customers := c.customers[id := row]), CustomerUpdated(id, row))
    case DeleteCustomer(id) =>
      if id !in c.customers then Fails(NotFound)
      else if exists p :: p in c.payments && c.payments[p].customerId == id then Fails(ForeignKeyViolation)
      else Does(c.(customers := c.customers - {id}), CustomerDeleted(id))
    case CreatePayment(id, customerId, amount, via) =>
      if !(0 < amount <= MAX_CENTS) then Fails(InvalidAmount)
      else if customerId !in c.customers then Fails(NotFound)
      else if id in c.payments then Fails(DuplicateKey)
      else if LedgerSum(c.ledger) + amount > MAX_CENTS then Fails(NumericOverflow)
      else
        var row := Payment(customerId, amount, Created, via, 0, now, now);
        var entry := LedgerEntry(id, None, PaymentCreatedEntry, amount, LedgerSum(c.ledger) + amount);
        Does(c.(payments := c.payments[id := row], ledger := c.ledger + [entry]), PaymentEvent(OnCreated, id, row))
    case TransitionPayment(id, target) =>
      if id !in c.payments then Fails(NotFound)
      else if target !in Allowed(c.payments[id].status) then Fails(InvalidStatus(c.payments[id].status))
      else if target == Captured && LedgerSum(c.ledger) > MAX_CENTS then Fails(NumericOverflow)
      else
        var row := c.payments[id].(status := target, updatedAt := now);
        var entries := if target == Captured
                       then [LedgerEntry(id, None, PaymentCapturedEntry, row.amount, LedgerSum(c.ledger))]
                       else [];
        Does(c.(payments := c.payments[id := row], ledger := c.ledger + entries), PaymentEvent(TopicOf(target), id, row))
    case UpdatePayment(id) =>
      if id !in c.payments then Fails(NotFound)
      else
        var row := c.payments[id].(updatedAt := now);
        Does(c.(payments := c.payments[id := row]), PaymentEvent(OnUpdated, id, row))
    case CreateRefund(id, paymentId, amount) =>
      if !(0 < amount <= MAX_CENTS) then Fails(InvalidAmount)
      else if paymentId !in c.payments then Fails(NotFound)
      else
        var pay := c.payments[paymentId];
        if !Succeeded(pay.status) then Fails(InvalidStatus(pay.status))
        else if amount > pay.amount - pay.amountRefunded then Fails(ExceedsRemaining(pay.amount - pay.amountRefunded))
        else if id in c.refunds then Fails(DuplicateKey)
        else if LedgerSum(c.ledger) - amount > MAX_CENTS then Fails(NumericOverflow)
        else
          var row := Refund(paymentId, amount, Initiated, now, now);
          var entry := LedgerEntry(paymentId, Some(id), RefundIssuedEntry, amount, LedgerSum(c.ledger) - amount);
          Does(c.(payments := c.payments[paymentId := pay.(amountRefunded := pay.amountRefunded + amount)],
                  refunds := c.refunds[id := row], ledger := c.ledger + [entry]), RefundInitiated(id, row, pay.customerId))
    case ProcessRefund(id) =>
      if id !in c.refunds then Fails(NotFound)
      else if c.refunds[id].status != Initiated then Fails(NotInitiated)
      else
        var row := c.refunds[id].(status := Processed, updatedAt := now);
        Does(c.(refunds := c.refunds[id := row]), RefundProcessed(id, row))
  }

  /** The specification of every write transaction: the tables and the outbox change together. */
  function Execute(c: Core, tx: Tx): Outcome {
    match EffectOf(c, tx.command, tx.now)
    case Fails(e) => Err(e)
    case Does(changed, event) => Emit(changed, tx.eventId, tx.now, event)
  }

  /** A merchant just created: empty tables and one event. */
  function Genesis(profile: Profile, eventId: Id, now: Time): Core {
    Core(profile, map[], map[], map[], [], [Record(eventId, MerchantCreated(profile), now)])
  }

  /** The tables after a history of transactions, each committed or rolled back. */
  function Run(start: Core, history: seq<Tx>): Core {
    if history == [] then start
    else
      var before := Run(start, history[..|history| - 1]);
      After(before, Execute(before, history[|history| - 1]))
  }

  /** Transactions commit one after another, at strictly increasing times. */
  predicate Increasing(start: Time, history: seq<Tx>) {
    && (forall i :: 0 <= i < |history| ==> start < history[i].now)
    && (forall i, j :: 0 <= i < j < |history| ==> history[i].now < history[j].now)
  }

  /** The database itself: rows are changed in place, and an aborted transaction restores them. */
  class CoreDb {
    var profile: Profile
    var customers: map<Id, Customer>
    var payments: map<Id, Payment>
    var refunds: map<Id, Refund>
    var ledger: seq<LedgerEntry>
    var outbox: seq<Record>

    function Contents(): Core
      reads this
    {
      Core(profile, customers, payments, refunds, ledger, outbox)
    }

    static function ErrorOf(o: Outcome): Option<Error> {
      if o.Ok? then None else Some(o.error)
    }

    /** From the old tables to the new ones, exactly the specified transaction happened. */
    twostate predicate Performs(tx: Tx, new error: Option<Error>)
      reads this
    {
      var outcome := Execute(old(Contents()), tx);
      Contents() == After(old(Contents()), outcome) && error == ErrorOf(outcome)
    }

    constructor CreateMerchant(p: Profile, eventId: Id, now: Time)
      ensures Contents() == Genesis(p, eventId, now)
    {
      profile, customers, payments, refunds := p, map[], map[], map[];
      ledger, outbox := [], [Record(eventId, MerchantCreated(p), now)];
    }

    method Rollback(snapshot: Core)
      modifies this
      ensures Contents() == snapshot
    {
      profile, customers, payments := snapshot.profile, snapshot.customers, snapshot.payments;
      refunds, ledger, outbox := snapshot.refunds, snapshot.ledger, snapshot.outbox;
    }

    /** Appends the event and commits, or restores `snapshot` when the event id is taken. */
    method EmitEvent(eventId: Id, now: Time, e: Event, snapshot: Core) returns (error: Option<Error>)
      modifies this
      ensures Contents() == After(snapshot, Emit(old(Contents()), eventId, now, e))
      ensures error == ErrorOf(Emit(old(Contents()), eventId, now, e))
    {
      if eventId in Ids(outbox) {
        Rollback(snapshot);
        return Some(DuplicateKey);
      }
      outbox := outbox + [Record(eventId, e, now)];
      return None;
    }

    method UpdateMerchantRow(name: Option<string>, email: Option<string>, status: Option<string>,
                             eventId: Id, now: Time) returns (error: Option<Error>)
      modifies this
      ensures Performs(Tx(UpdateMerchant(name, email, status), eventId, now), error)
    {
      var snapshot := Contents();
      if name.Some? { profile := profile.(name := name.value); }
      if email.Some? { profile := profile.(email := email.value); }
      if status.Some? { profile := profile.(status := status.value); }
      error := EmitEvent(eventId, now, MerchantUpdated(profile), snapshot);
    }

    method InsertCustomer(id: Id, name: string, email: Option<string>, eventId: Id, now: Time)
      returns (error: Option<Error>)
      modifies this
      ensures Performs(Tx(CreateCustomer(id, name, email), eventId, now), error)
    {
      if id in customers { return Some(DuplicateKey); }
      var snapshot := Contents();
      customers := customers[id := Customer(name, email)];
      error := EmitEvent(eventId, now, CustomerCreated(id, customers[id]), snapshot);
    }

    method ChangeCustomer(id: Id, name: Option<string>, email: Option<string>, eventId: Id, now: Time)
      returns (error: Option<Error>)
      modifies this
      ensures Performs(Tx(UpdateCustomer(id, name, email), eventId, now), error)
    {
      if id !in customers { return Some(NotFound); }
      var snapshot := Contents();
      if name.Some? { customers := customers[id := customers[id].(name := name.value)]; }
      if email.Some? { customers := customers[id := customers[id].(email := email)]; }
      assert customers == snapshot.customers[id := customers[id]];
      error := EmitEvent(eventId, now, CustomerUpdated(id, customers[id]), snapshot);
    }

    method RemoveCustomer(id: Id, eventId: Id, now: Time) returns (error: Option<Error>)
      modifies this
      ensures Performs(Tx(DeleteCustomer(id), eventId, now), error)
    {
      if id !in customers { return Some(NotFound); }
      if exists p :: p in payments && payments[p].customerId == id { return Some(ForeignKeyViolation); }
      var snapshot := Contents();
      customers := customers - {id};
      error := EmitEvent(eventId, now, CustomerDeleted(id), snapshot);
    }

    method InsertPayment(id: Id, customerId: Id, amount: Cents, via: string, eventId: Id, now: Time)
      returns (error: Option<Error>)
      modifies this
      ensures Performs(Tx(CreatePayment(id, customerId, amount, via), eventId, now), error)
    {
      if amount <= 0 || amount > MAX_CENTS { return Some(InvalidAmount); }
      if customerId !in customers { return Some(NotFound); }
      if id in payments { return Some(DuplicateKey); }
      var snapshot := Contents();
      payments := payments[id := Payment(customerId, amount, Created, via, 0, now, now)];
      var balance := LedgerSum(ledger) + amount;
      if balance > MAX_CENTS {
        Rollback(snapshot);
        return Some(NumericOverflow);
      }
      ledger := ledger + [LedgerEntry(id, None, PaymentCreatedEntry, amount, balance)];
      error := EmitEvent(eventId, now, PaymentEvent(OnCreated, id, payments[id]), snapshot);
    }

    method Transition(id: Id, target: Status, eventId: Id, now: Time) returns (error: Option<Error>)
      modifies this
      ensures Performs(Tx(TransitionPayment(id, target), eventId, now), error)
    {
      if id !in payments { return Some(NotFound); }
      var current := payments[id].status;
      if target !in Allowed(current) { return Some(InvalidStatus(current)); }
      var snapshot := Contents();
      payments := payments[id := payments[id].(status := target, updatedAt := now)];
      if target == Captured {
        var balance := LedgerSum(ledger);
        if balance > MAX_CENTS {
          Rollback(snapshot);
          return Some(NumericOverflow);
        }
        ledger := ledger + [LedgerEntry(id, None, PaymentCapturedEntry, payments[id].amount, balance)];
      }
      assert target != Captured ==> ledger + [] == ledger;
      error := EmitEvent(eventId, now, PaymentEvent(TopicOf(target), id, payments[id]), snapshot);
    }

    method TouchPayment(id: Id, eventId: Id, now: Time) returns (error: Option<Error>)
      modifies this
      ensures Performs(Tx(UpdatePayment(id), eventId, now), error)
    {
      if id !in payments { return Some(NotFound); }
      var snapshot := Contents();
      payments := payments[id := payments[id].(updatedAt := now)];
      error := EmitEvent(eventId, now, PaymentEvent(OnUpdated, id, payments[id]), snapshot);
    }

    method InsertRefund(id: Id, paymentId: Id, amount: Cents, eventId: Id, now: Time)
      returns (error: Option<Error>)
      modifies this
      ensures Performs(Tx(CreateRefund(id, paymentId, amount), eventId, now), error)
    {
      if amount <= 0 || amount > MAX_CENTS { return Some(InvalidAmount); }
      if paymentId !in payments { return Some(NotFound); }
      var pay := payments[paymentId];
      if pay.status != Captured && pay.status != Settled { return Some(InvalidStatus(pay.status)); }
      var remaining := pay.amount - pay.amountRefunded;
      if amount > remaining { return Some(ExceedsRemaining(remaining)); }
      var snapshot := Contents();
      payments := payments[paymentId := pay.(amountRefunded := pay.amountRefunded + amount)];
      if id in refunds {
        Rollback(snapshot);
        return Some(DuplicateKey);
      }
      refunds := refunds[id := Refund(paymentId, amount, Initiated, now, now)];
      var balance := LedgerSum(ledger) - amount;
      if balance > MAX_CENTS {
        Rollback(snapshot);
        return Some(NumericOverflow);
      }
      ledger := ledger + [LedgerEntry(paymentId, Some(id), RefundIssuedEntry, amount, balance)];
      error := EmitEvent(eventId, now, RefundInitiated(id, refunds[id], pay.customerId), snapshot);
    }

    method MarkRefundProcessed(id: Id, eventId: Id, now: Time) returns (error: Option<Error>)
      modifies this
      ensures Performs(Tx(ProcessRefund(id), eventId, now), error)
    {
      if id !in refunds { return Some(NotFound); }
      if refunds[id].status != Initiated { return Some(NotInitiated); }
      var snapshot := Contents();
      refunds := refunds[id := refunds[id].(status := Processed, updatedAt := now)];
      error := EmitEvent(eventId, now, RefundProcessed(id, refunds[id]), snapshot);
    }
  }
}
