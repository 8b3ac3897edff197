/** The values that the services exchange. Amounts are whole cents, times are microseconds. */
module Domain {

  datatype Option<+T> = None | Some(value: T)

  /** SQL's COALESCE on a nullable argument. */
  function Coalesce<T>(o: Option<T>, current: T): T {
    if o.Some? then o.value else current
  }

  type Id = nat
  type Cents = int
  type Time = int

  /** The largest value of a DECIMAL(12,2) column. */
  const MAX_CENTS: Cents := 999_999_999_999
  const DAY: Time := 86_400_000_000

  /** The UTC calendar day of a timestamp. */
  function DateOf(t: Time): int { t / DAY }

  datatype Status = Created | Authorized | Captured | Settled | Failed
  datatype RefundStatus = Initiated | Processed

  datatype Profile = Profile(name: string, email: string, status: string)
  datatype Customer = Customer(name: string, email: Option<string>)
  datatype Payment = Payment(customerId: Id, amount: Cents, status: Status, via: string,
                             amountRefunded: Cents, createdAt: Time, updatedAt: Time)
  datatype Refund = Refund(paymentId: Id, amount: Cents, status: RefundStatus, createdAt: Time, updatedAt: Time)

  /** Captured and settled payments are the ones money was taken for. */
  predicate Succeeded(s: Status) { s == Captured || s == Settled }

  datatype PaymentTopic = OnCreated | OnUpdated | OnAuthorized | OnCaptured | OnFailed | OnSettled

  datatype Event =
    | MerchantCreated(profile: Profile)
    | MerchantUpdated(profile: Profile)
    | CustomerCreated(customerId: Id, customer: Customer)
    | CustomerUpdated(customerId: Id, customer: Customer)
    | CustomerDeleted(customerId: Id)
    | PaymentEvent(topic: PaymentTopic, paymentId: Id, payment: Payment)
    | RefundInitiated(refundId: Id, refund: Refund, customerId: Id)
    | RefundProcessed(refundId: Id, refund: Refund)

  /** One row of the outbox: an event with its identity and its time. */
  datatype Record = Record(id: Id, event: Event, createdAt: Time)

  function Ids(records: seq<Record>): set<Id> {
    set i | 0 <= i < |records| :: records[i].id
  }
}
