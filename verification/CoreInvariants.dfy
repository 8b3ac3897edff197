/** What every history of write transactions keeps: row sanity, refund conservation, the ledger,
    and the order of the emitted events. */
module CoreInvariants {
  import opened Domain
  import opened Sums
  import opened Aggregates
  import opened CoreTables

  // ---------- The invariants ----------

  ghost predicate RowsSane(c: Core) {
    && (forall p {:trigger c.payments[p]} :: p in c.payments ==>
      var r := c.payments[p];
      && r.customerId in c.customers
      && 0 < r.amount <= MAX_CENTS
      && 0 <= r.amountRefunded <= r.amount
      && (r.amountRefunded > 0 ==> Succeeded(r.status)))
    && (forall r {:trigger c.refunds[r]} :: r in c.refunds ==>
      c.refunds[r].paymentId in c.payments && 0 < c.refunds[r].amount)
  }

  /** Refund amounts as a column, of one payment or (None) of all of them. */
  ghost function RefundColumn(refunds: map<Id, Refund>, of: Option<Id>): map<Id, int> {
    map r | r in refunds :: if of == None || refunds[r].paymentId == of.value then refunds[r].amount else 0
  }

  ghost function RefundTotal(refunds: map<Id, Refund>, of: Option<Id>): int {
    Total(RefundColumn(refunds, of))
  }

  /** What the ledger's refund_issued rows record for one payment. */
  ghost function LedgerRefunds(ledger: seq<LedgerEntry>, p: Id): int {
    if ledger == [] then 0
    else
      var e := ledger[|ledger| - 1];
      LedgerRefunds(ledger[..|ledger| - 1], p)
        + (if e.entryType == RefundIssuedEntry && e.paymentId == p then e.amount else 0)
  }

  function RefundedOf(c: Core, p: Id): int {
    if p in c.payments then c.payments[p].amountRefunded else 0
  }

  /** The reserved amount of each payment is the sum of its refund rows, */
  ghost predicate RefundRowsAgree(c: Core) {
    && (forall p: Id :: RefundTotal(c.refunds, Some(p)) == RefundedOf(c, p))
    && RefundTotal(c.refunds, None) == Sum(c.payments, All, Refunded)
  }

  /** and of its refund_issued rows in the ledger. */
  ghost predicate RefundEntriesAgree(c: Core) {
    forall p: Id :: LedgerRefunds(c.ledger, p) == RefundedOf(c, p)
  }

  ghost predicate LedgerReconciles(c: Core) {
    LedgerSum(c.ledger) == Sum(c.payments, All, Balance)
  }

  /** A row's own amount counts in its balance, except for capture rows. */
  ghost predicate BalanceExact(ledger: seq<LedgerEntry>, i: nat)
    requires i < |ledger|
  {
    && ledger[i].balanceAfter ==
       LedgerSum(if ledger[i].entryType == PaymentCapturedEntry then ledger[..i] else ledger[..i + 1])
    && 0 <= ledger[i].balanceAfter <= MAX_CENTS
  }

  ghost predicate BalancesExact(ledger: seq<LedgerEntry>) {
    forall i :: 0 <= i < |ledger| ==> BalanceExact(ledger, i)
  }

  /** The gross volume is bounded because every created row's balance had to fit its column. */
  ghost predicate VolumeFits(c: Core) {
    Sum(c.payments, All, Amount) <= MAX_CENTS
  }

  ghost predicate UniqueIds(records: seq<Record>) {
    forall i, j :: 0 <= i < j < |records| ==> records[i].id != records[j].id
  }

  // ---------- The life of one payment, as its events tell it ----------

  datatype Track = Absent | At(status: Status) | Broken

  predicate Concerns(e: Event, p: Id) {
    || (e.PaymentEvent? && e.paymentId == p)
    || ((e.RefundInitiated? || e.RefundProcessed?) && e.refund.paymentId == p)
  }

  /** The automaton of the transition table, fed with one event about the payment. */
  function Advance(t: Track, e: Event): Track {
    match e
    case PaymentEvent(OnCreated, _, _) => if t == Absent then At(Created) else Broken
    case PaymentEvent(OnUpdated, _, _) => if t.At? then t else Broken
    case PaymentEvent(OnAuthorized, _, _) => if t == At(Created) then At(Authorized) else Broken
    case PaymentEvent(OnFailed, _, _) => if t == At(Created) then At(Failed) else Broken
    case PaymentEvent(OnCaptured, _, _) => if t == At(Authorized) then At(Captured) else Broken
    case PaymentEvent(OnSettled, _, _) => if t == At(Captured) then At(Settled) else Broken
    case _ => if t.At? && Succeeded(t.status) then t else Broken
  }

  function TrackOf(records: seq<Record>, p: Id): Track {
    if records == [] then Absent
    else
      var t := TrackOf(records[..|records| - 1], p);
      var e := records[|records| - 1].event;
      if Concerns(e, p) then Advance(t, e) else t
  }

  function StatusOf(c: Core, p: Id): Track {
    if p in c.payments then At(c.payments[p].status) else Absent
  }

  ghost predicate TracksStatus(c: Core) {
    forall p: Id :: TrackOf(c.outbox, p) == StatusOf(c, p)
  }

  ghost predicate Good(c: Core) {
    && RowsSane(c) && RefundRowsAgree(c) && RefundEntriesAgree(c) && LedgerReconciles(c)
    && BalancesExact(c.ledger) && VolumeFits(c) && UniqueIds(c.outbox) && TracksStatus(c)
  }

  // ---------- The five ways a transaction changes the money tables ----------

  datatype Change = Quiet | Opens(p: Id) | Restates(p: Id) | Refunds(p: Id, r: Id) | Closes(r: Id)

  function ChangeOf(command: Command): Change {
    match command
    case CreatePayment(id, _, _, _) => Opens(id)
    case TransitionPayment(id, _) => Restates(id)
    case UpdatePayment(id) => Restates(id)
    case CreateRefund(id, p, _) => Refunds(p, id)
    case ProcessRefund(id) => Closes(id)
    case _ => Quiet
  }

  function Opening(c: Core, p: Id, row: Payment): LedgerEntry {
    LedgerEntry(p, None, PaymentCreatedEntry, row.amount, LedgerSum(c.ledger) + row.amount)
  }

  function Capture(c: Core, p: Id, row: Payment): LedgerEntry {
    LedgerEntry(p, None, PaymentCapturedEntry, row.amount, LedgerSum(c.ledger))
  }

  function Issue(c: Core, p: Id, r: Id, amount: Cents): LedgerEntry {
    LedgerEntry(p, Some(r), RefundIssuedEntry, amount, LedgerSum(c.ledger) - amount)
  }

  predicate Captures(before: Status, after: Status) { after == Captured && before != Captured }

  ghost predicate Changes(c: Core, d: Core, k: Change) {
    match k
    case Quiet => (
      && d.payments == c.payments && d.refunds == c.refunds && d.ledger == c.ledger
      && (forall p {:trigger c.payments[p]} :: p in c.payments && c.payments[p].customerId in c.customers
           ==> c.payments[p].customerId in d.customers))
    case Opens(p) => (
      && p !in c.payments && p in d.payments && d.refunds == c.refunds && d.customers == c.customers
      && var row := d.payments[p];
      && d.payments == c.payments[p := row] && row.customerId in c.customers
      && row.status == Created && row.amountRefunded == 0 && 0 < row.amount <= MAX_CENTS
      && d.ledger == c.ledger + [Opening(c, p, row)] && LedgerSum(c.ledger) + row.amount <= MAX_CENTS)
    case Restates(p) => (
      && p in c.payments && p in d.payments && d.refunds == c.refunds && d.customers == c.customers
      && var was, row := c.payments[p], d.payments[p];
      && d.payments == c.payments[p := row] && row.(status := was.status, updatedAt := was.updatedAt) == was
      && (row.status == was.status || row.status in Allowed(was.status))
      && (Captures(was.status, row.status) ==>
           d.ledger == c.ledger + [Capture(c, p, row)] && LedgerSum(c.ledger) <= MAX_CENTS)
      && (!Captures(was.status, row.status) ==> d.ledger == c.ledger))
    case Refunds(p, r) => (
      && p in c.payments && p in d.payments && d.customers == c.customers
      && r !in c.refunds && r in d.refunds
      && var was, row, refund := c.payments[p], d.payments[p], d.refunds[r];
      && d.payments == c.payments[p := row] && d.refunds == c.refunds[r := refund]
      && row == was.(amountRefunded := was.amountRefunded + refund.amount)
      && refund.paymentId == p && refund.status == Initiated && 0 < refund.amount
      && row.amountRefunded <= row.amount && Succeeded(row.status)
      && d.ledger == c.ledger + [Issue(c, p, r, refund.amount)]
      && LedgerSum(c.ledger) - refund.amount <= MAX_CENTS)
    case Closes(r) => (
      && d.customers == c.customers && r in c.refunds && r in d.refunds
      && d.payments == c.payments && d.ledger == c.ledger && d.refunds == c.refunds[r := d.refunds[r]]
      && d.refunds[r].paymentId == c.refunds[r].paymentId && d.refunds[r].amount == c.refunds[r].amount)
  }

  lemma ClassifiedTransition(c: Core, tx: Tx, d: Core)
    requires Execute(c, tx) == Ok(d) && tx.command.TransitionPayment?
    ensures Changes(c, d, Restates(tx.command.paymentId))
  {
    if tx.command.target != Captured { assert c.ledger + [] == c.ledger; }
  }

  lemma ClassifiedRefund(c: Core, tx: Tx, d: Core)
    requires Execute(c, tx) == Ok(d) && tx.command.CreateRefund?
    ensures Changes(c, d, Refunds(tx.command.paymentId, tx.command.refundId))
  {
  }

  lemma ClassifiedOther(c: Core, tx: Tx, d: Core)
    requires Execute(c, tx) == Ok(d) && !tx.command.TransitionPayment? && !tx.command.CreateRefund?
    ensures Changes(c, d, ChangeOf(tx.command))
  {
  }

  lemma Classified(c: Core, tx: Tx, d: Core)
    requires Execute(c, tx) == Ok(d)
    ensures Changes(c, d, ChangeOf(tx.command))
  {
    if tx.command.TransitionPayment? {
      ClassifiedTransition(c, tx, d);
    } else if tx.command.CreateRefund? {
      ClassifiedRefund(c, tx, d);
    } else {
      ClassifiedOther(c, tx, d);
    }
  }

  // ---------- Each change keeps the invariants ----------

  /** The refund columns after one refund row is written. */
  lemma RefundUpdate(refunds: map<Id, Refund>, id: Id, row: Refund)
    requires id in refunds ==> row.paymentId == refunds[id].paymentId && row.amount == refunds[id].amount
    ensures forall of ::
      RefundTotal(refunds[id := row], of) == RefundTotal(refunds, of) + NewRefundWeight(refunds, id, row, of)
  {
    forall of ensures
      RefundTotal(refunds[id := row], of) == RefundTotal(refunds, of) + NewRefundWeight(refunds, id, row, of)
    {
      var w := if of == None || row.paymentId == of.value then row.amount else 0;
      assert RefundColumn(refunds[id := row], of) == RefundColumn(refunds, of)[id := w];
      TotalUpdate(RefundColumn(refunds, of), id, w);
    }
  }

  function NewRefundWeight(refunds: map<Id, Refund>, id: Id, row: Refund, of: Option<Id>): int {
    if id !in refunds && (of == None || row.paymentId == of.value) then row.amount else 0
  }

  lemma {:induction false} LedgerAppend(ledger: seq<LedgerEntry>, e: LedgerEntry)
    ensures LedgerSum(ledger + [e]) == LedgerSum(ledger) + Signed(e)
    ensures forall p: Id :: LedgerRefunds(ledger + [e], p) == LedgerRefunds(ledger, p)
              + (if e.entryType == RefundIssuedEntry && e.paymentId == p then e.amount else 0)
  {
    assert (ledger + [e])[..|ledger + [e]| - 1] == ledger;
  }

  lemma RowsKept(c: Core, d: Core, k: Change)
    requires RowsSane(c) && Changes(c, d, k)
    ensures RowsSane(d)
  {
  }

  lemma RefundRowsAfterPayment(c: Core, d: Core, p: Id)
    requires RefundRowsAgree(c) && d.refunds == c.refunds && p in d.payments && d.payments == c.payments[p := d.payments[p]]
    requires d.payments[p].amountRefunded == RefundedOf(c, p)
    ensures RefundRowsAgree(d)
  {
    SumWrite(c.payments, p, d.payments[p], All, Refunded);
    forall q: Id ensures RefundTotal(d.refunds, Some(q)) == RefundedOf(d, q) {
      assert RefundTotal(c.refunds, Some(q)) == RefundedOf(c, q);
    }
  }

  lemma RefundRowsAfterRefund(c: Core, d: Core, p: Id, r: Id)
    requires RefundRowsAgree(c) && Changes(c, d, Refunds(p, r))
    ensures RefundRowsAgree(d)
  {
    SumWrite(c.payments, p, d.payments[p], All, Refunded);
    RefundUpdate(c.refunds, r, d.refunds[r]);
    forall q: Id ensures RefundTotal(d.refunds, Some(q)) == RefundedOf(d, q) {
      assert RefundTotal(c.refunds, Some(q)) == RefundedOf(c, q);
    }
  }

  lemma RefundRowsAfterClosing(c: Core, d: Core, r: Id)
    requires RefundRowsAgree(c) && Changes(c, d, Closes(r))
    ensures RefundRowsAgree(d)
  {
    RefundUpdate(c.refunds, r, d.refunds[r]);
    forall q: Id ensures RefundTotal(d.refunds, Some(q)) == RefundedOf(d, q) {
      assert RefundTotal(c.refunds, Some(q)) == RefundedOf(c, q);
    }
  }

  lemma RefundRowsKept(c: Core, d: Core, k: Change)
    requires RowsSane(c) && RefundRowsAgree(c) && Changes(c, d, k)
    ensures RefundRowsAgree(d)
  {
    match k
    case Opens(p) => RefundRowsAfterPayment(c, d, p);
    case Restates(p) => RefundRowsAfterPayment(c, d, p);
    case Refunds(p, r) => RefundRowsAfterRefund(c, d, p, r);
    case Closes(r) => RefundRowsAfterClosing(c, d, r);
    case Quiet =>
  }

  lemma RefundEntriesKept(c: Core, d: Core, k: Change)
    requires RefundEntriesAgree(c) && Changes(c, d, k)
    ensures RefundEntriesAgree(d)
  {
    if d.ledger != c.ledger { LedgerAppend(c.ledger, d.ledger[|c.ledger|]); }
  }

  /** The balance weight of a payment row moves by what the ledger records. */
  lemma LedgerAfterPayment(c: Core, d: Core, p: Id, moved: Cents)
    requires LedgerReconciles(c) && p in d.payments && d.payments == c.payments[p := d.payments[p]]
    requires LedgerSum(d.ledger) == LedgerSum(c.ledger) + moved
    requires Weight(All, Balance, d.payments[p]) == WeightAt(c.payments, p, All, Balance) + moved
    ensures LedgerReconciles(d)
  {
    SumWrite(c.payments, p, d.payments[p], All, Balance);
  }

  lemma LedgerAfterOpening(c: Core, d: Core, p: Id)
    requires LedgerReconciles(c) && Changes(c, d, Opens(p))
    ensures LedgerReconciles(d)
  {
    LedgerAppend(c.ledger, Opening(c, p, d.payments[p]));
    LedgerAfterPayment(c, d, p, d.payments[p].amount);
  }

  lemma LedgerAfterRestating(c: Core, d: Core, p: Id)
    requires LedgerReconciles(c) && Changes(c, d, Restates(p))
    ensures LedgerReconciles(d)
  {
    var was, row := c.payments[p], d.payments[p];
    if Captures(was.status, row.status) {
      LedgerAppend(c.ledger, Capture(c, p, row));
      LedgerAfterPayment(c, d, p, row.amount);
    } else {
      LedgerAfterPayment(c, d, p, 0);
    }
  }

  lemma LedgerAfterRefund(c: Core, d: Core, p: Id, r: Id)
    requires LedgerReconciles(c) && Changes(c, d, Refunds(p, r))
    ensures LedgerReconciles(d)
  {
    LedgerAppend(c.ledger, Issue(c, p, r, d.refunds[r].amount));
    LedgerAfterPayment(c, d, p, -d.refunds[r].amount);
  }

  lemma LedgerKept(c: Core, d: Core, k: Change)
    requires LedgerReconciles(c) && Changes(c, d, k)
    ensures LedgerReconciles(d)
  {
    match k
    case Opens(p) => LedgerAfterOpening(c, d, p);
    case Restates(p) => LedgerAfterRestating(c, d, p);
    case Refunds(p, r) => LedgerAfterRefund(c, d, p, r);
    case _ =>
  }

  lemma BalanceFits(c: Core)
    requires RowsSane(c) && LedgerReconciles(c)
    ensures 0 <= LedgerSum(c.ledger)
  {
    SumNonNegative(c.payments, All, Balance);
  }

  lemma {:induction false} BalancesExtend(ledger: seq<LedgerEntry>, e: LedgerEntry)
    requires BalancesExact(ledger)
    requires e.balanceAfter == LedgerSum(ledger) + (if e.entryType == PaymentCapturedEntry then 0 else Signed(e))
    requires 0 <= e.balanceAfter <= MAX_CENTS
    ensures BalancesExact(ledger + [e])
  {
    var grown := ledger + [e];
    forall i | 0 <= i < |grown| ensures BalanceExact(grown, i) {
      if i < |ledger| {
        assert BalanceExact(ledger, i);
        assert grown[..i] == ledger[..i] && grown[..i + 1] == ledger[..i + 1];
      } else {
        LedgerAppend(ledger, e);
        assert grown[..i] == ledger && grown[..i + 1] == grown;
      }
    }
  }

  lemma BalancesKept(c: Core, d: Core, k: Change)
    requires RowsSane(c) && LedgerReconciles(c) && BalancesExact(c.ledger) && Changes(c, d, k)
    requires RowsSane(d) && LedgerReconciles(d)
    ensures BalancesExact(d.ledger)
  {
    BalanceFits(c);
    BalanceFits(d);
    if d.ledger != c.ledger {
      LedgerAppend(c.ledger, d.ledger[|c.ledger|]);
      BalancesExtend(c.ledger, d.ledger[|c.ledger|]);
    }
  }

  lemma VolumeKept(c: Core, d: Core, k: Change)
    requires RowsSane(c) && LedgerReconciles(c) && VolumeFits(c) && Changes(c, d, k)
    ensures VolumeFits(d)
  {
    if k.Opens? || k.Restates? || k.Refunds? { SumUpdate(c.payments, k.p, d.payments[k.p]); }
    if k.Opens? { SumLe(c.payments, All, Amount, All, Balance); }
  }

  /** A commit appends exactly one event, with a new id. */
  lemma OneEventEach(c: Core, tx: Tx, d: Core)
    requires Execute(c, tx) == Ok(d)
    ensures |d.outbox| == |c.outbox| + 1 && d.outbox[..|c.outbox|] == c.outbox
    ensures d.outbox[|c.outbox|].id == tx.eventId && d.outbox[|c.outbox|].createdAt == tx.now
    ensures d.outbox[|c.outbox|].event == EffectOf(c, tx.command, tx.now).event
    ensures tx.eventId !in Ids(c.outbox)
  {
    OutboxUntouched(c, tx.command, tx.now);
  }

  lemma OutboxUntouched(c: Core, command: Command, now: Time)
    ensures var e := EffectOf(c, command, now); e.Does? ==> e.core.outbox == c.outbox
  {
  }

  lemma UniqueExtends(records: seq<Record>, r: Record)
    requires UniqueIds(records) && r.id !in Ids(records)
    ensures UniqueIds(records + [r])
  {
    forall i | 0 <= i < |records| ensures records[i].id in Ids(records) {}
  }

  /** A refund row belongs to a payment that money was taken for. */
  lemma RefundedWasPaid(c: Core, r: Id)
    requires RowsSane(c) && RefundRowsAgree(c) && r in c.refunds
    ensures Succeeded(c.payments[c.refunds[r].paymentId].status)
  {
    var p := c.refunds[r].paymentId;
    var column := RefundColumn(c.refunds, Some(p));
    TotalBoundsEntry(column, r);
    assert RefundTotal(c.refunds, Some(p)) == RefundedOf(c, p);
  }

  /** The event a transaction emits moves the automaton exactly as the transaction moves the row. */
  lemma EventMatches(c: Core, command: Command, now: Time, p: Id)
    requires RowsSane(c) && RefundRowsAgree(c) && EffectOf(c, command, now).Does?
    ensures var Does(d, e) := EffectOf(c, command, now);
      StatusOf(d, p) == if Concerns(e, p) then Advance(StatusOf(c, p), e) else StatusOf(c, p)
  {
    if command.ProcessRefund? { RefundedWasPaid(c, command.refundId); }
  }

  lemma TracksKept(c: Core, tx: Tx, d: Core)
    requires RowsSane(c) && RefundRowsAgree(c) && TracksStatus(c) && Execute(c, tx) == Ok(d)
    ensures TracksStatus(d)
  {
    OneEventEach(c, tx, d);
    forall p: Id ensures TrackOf(d.outbox, p) == StatusOf(d, p) {
      EventMatches(c, tx.command, tx.now, p);
      assert TrackOf(c.outbox, p) == StatusOf(c, p);
    }
  }

  lemma GoodKept(c: Core, tx: Tx, d: Core)
    requires Good(c) && Execute(c, tx) == Ok(d)
    ensures Good(d)
  {
    var k := ChangeOf(tx.command);
    Classified(c, tx, d);
    RowsKept(c, d, k);
    RefundRowsKept(c, d, k);
    RefundEntriesKept(c, d, k);
    LedgerKept(c, d, k);
    BalancesKept(c, d, k);
    VolumeKept(c, d, k);
    OneEventEach(c, tx, d);
    UniqueExtends(c.outbox, d.outbox[|c.outbox|]);
    assert d.outbox == c.outbox + [d.outbox[|c.outbox|]];
    TracksKept(c, tx, d);
  }

  lemma GenesisIsGood(profile: Profile, eventId: Id, now: Time)
    ensures Good(Genesis(profile, eventId, now))
  {
    var start := Genesis(profile, eventId, now);
    forall s, m ensures Sum(start.payments, s, m) == 0 { TotalZero(Column(start.payments, s, m)); }
    forall of ensures RefundTotal(start.refunds, of) == 0 { TotalZero(RefundColumn(start.refunds, of)); }
    assert start.outbox[..0] == [];
  }

  /** Every reachable state of the write side is good. */
  lemma {:induction false} ReachableIsGood(start: Core, history: seq<Tx>)
    requires Good(start)
    ensures Good(Run(start, history))
  {
    if history != [] {
      ReachableIsGood(start, history[..|history| - 1]);
      var c := Run(start, history[..|history| - 1]);
      var o := Execute(c, history[|history| - 1]);
      if o.Ok? { GoodKept(c, history[|history| - 1], o.core); }
    }
  }

  // ---------- What holds in every reachable state ----------

  /** Refund conservation: reserved amount == refund rows == ledger rows, within the payment's amount. */
  lemma {:induction false} RefundsAreConserved(profile: Profile, eventId: Id, now: Time, history: seq<Tx>, p: Id)
    ensures var c := Run(Genesis(profile, eventId, now), history);
      p in c.payments ==>
        var r := c.payments[p];
        && r.amountRefunded == RefundTotal(c.refunds, Some(p)) == LedgerRefunds(c.ledger, p)
        && 0 <= r.amountRefunded <= r.amount
        && (r.amountRefunded != 0 ==> r.status == Captured || r.status == Settled)
  {
    GenesisIsGood(profile, eventId, now);
    ReachableIsGood(Genesis(profile, eventId, now), history);
    var c := Run(Genesis(profile, eventId, now), history);
    assert p in c.payments ==> RefundedOf(c, p) == c.payments[p].amountRefunded;
  }

  /** The ledger is, to the cent, what the payment rows say it should be, after every one of its rows. */
  lemma {:induction false} LedgerMatchesPayments(profile: Profile, eventId: Id, now: Time, history: seq<Tx>)
    ensures var c := Run(Genesis(profile, eventId, now), history);
      && LedgerSum(c.ledger) == Sum(c.payments, All, Balance)
      && BalancesExact(c.ledger)
      && Sum(c.payments, All, Amount) <= MAX_CENTS
  {
    GenesisIsGood(profile, eventId, now);
    ReachableIsGood(Genesis(profile, eventId, now), history);
  }

  function CountTopic(records: seq<Record>, p: Id, t: PaymentTopic): nat {
    if records == [] then 0
    else
      var e := records[|records| - 1].event;
      CountTopic(records[..|records| - 1], p, t) + (if e.PaymentEvent? && e.paymentId == p && e.topic == t then 1 else 0)
  }

  /** How often a topic has occurred once the automaton is in a given place. */
  function Expected(t: Track, topic: PaymentTopic): nat {
    if t.At? && (
         || topic == OnCreated
         || (topic == OnAuthorized && (t.status == Authorized || Succeeded(t.status)))
         || (topic == OnCaptured && Succeeded(t.status))
         || (topic == OnSettled && t.status == Settled)
         || (topic == OnFailed && t.status == Failed))
    then 1 else 0
  }

  lemma {:induction false} CountsFollowTrack(records: seq<Record>, p: Id, topic: PaymentTopic)
    requires TrackOf(records, p) != Broken && topic != OnUpdated
    ensures CountTopic(records, p, topic) == Expected(TrackOf(records, p), topic)
  {
    if records != [] {
      CountsFollowTrack(records[..|records| - 1], p, topic);
    }
  }

  lemma {:induction false} NeverBroken(records: seq<Record>, p: Id, i: nat)
    requires TrackOf(records, p) != Broken && i <= |records|
    ensures TrackOf(records[..i], p) != Broken
  {
    if i < |records| {
      NeverBroken(records[..|records| - 1], p, i);
      assert records[..|records| - 1][..i] == records[..i];
    } else {
      assert records[..i] == records;
    }
  }

  /** The status a status event announces. */
  function Announces(t: PaymentTopic): Status
    requires t != OnUpdated
  {
    match t
    case OnCreated => Created
    case OnAuthorized => Authorized
    case OnCaptured => Captured
    case OnFailed => Failed
    case OnSettled => Settled
  }

  /** Each status event is emitted at most once for a payment, and captured excludes failed. */
  lemma {:induction false} StatusEventsOccurOnce(profile: Profile, eventId: Id, now: Time, history: seq<Tx>, p: Id, t: PaymentTopic)
    requires t != OnUpdated
    ensures var es := Run(Genesis(profile, eventId, now), history).outbox;
      && CountTopic(es, p, t) <= 1
      && (CountTopic(es, p, OnCaptured) == 0 || CountTopic(es, p, OnFailed) == 0)
  {
    GenesisIsGood(profile, eventId, now);
    ReachableIsGood(Genesis(profile, eventId, now), history);
    var c := Run(Genesis(profile, eventId, now), history);
    assert TrackOf(c.outbox, p) == StatusOf(c, p);
    CountsFollowTrack(c.outbox, p, t);
    CountsFollowTrack(c.outbox, p, OnCaptured);
    CountsFollowTrack(c.outbox, p, OnFailed);
  }

  /** Every event about a payment finds it where the transition table allows that event: it starts with
      `created`, each later status event is an edge of the table, and refunds come after capture. */
  predicate Lawful(es: seq<Record>, p: Id, i: nat)
    requires i < |es|
  {
    var e, before, after := es[i].event, TrackOf(es[..i], p), TrackOf(es[..i + 1], p);
    Concerns(e, p) ==>
      && after.At?
      && (before == Absent <==> e.PaymentEvent? && e.topic == OnCreated)
      && (e.PaymentEvent? && e.topic != OnUpdated ==> after == At(Announces(e.topic)))
      && (e.PaymentEvent? && e.topic != OnUpdated && before.At? ==> after.status in Allowed(before.status))
      && (!e.PaymentEvent? ==> CountTopic(es[..i], p, OnCaptured) == 1)
  }

  lemma {:induction false} UnbrokenIsLawful(es: seq<Record>, p: Id, i: nat)
    requires TrackOf(es, p) != Broken && i < |es|
    ensures Lawful(es, p, i)
  {
    NeverBroken(es, p, i);
    NeverBroken(es, p, i + 1);
    CountsFollowTrack(es[..i], p, OnCaptured);
    assert es[..i + 1][..i] == es[..i];
  }

  lemma {:induction false} TracesAreLawful(profile: Profile, eventId: Id, now: Time, history: seq<Tx>, p: Id)
    ensures var es := Run(Genesis(profile, eventId, now), history).outbox;
      forall i :: 0 <= i < |es| ==> Lawful(es, p, i)
  {
    GenesisIsGood(profile, eventId, now);
    ReachableIsGood(Genesis(profile, eventId, now), history);
    var c := Run(Genesis(profile, eventId, now), history);
    assert TrackOf(c.outbox, p) == StatusOf(c, p);
    forall i | 0 <= i < |c.outbox| ensures Lawful(c.outbox, p, i) { UnbrokenIsLawful(c.outbox, p, i); }
  }
}
