/** When a refund within the remaining amount is refused all the same: the balance column is full. */
module BalanceLimit {
  import opened Domain
  import opened Aggregates
  import opened CoreTables
  import opened CoreInvariants

  /** A refund within the remaining amount goes through exactly if what the merchant's payments add up to
      in the ledger, less the refund, still fits the balance column. */
  lemma {:induction false} RefundAcceptedIff(profile: Profile, eventId: Id, now: Time, history: seq<Tx>,
                          r: Id, p: Id, amount: Cents, e: Id, at: Time)
    requires var c := Run(Genesis(profile, eventId, now), history);
      && p in c.payments && Succeeded(c.payments[p].status) && r !in c.refunds && e !in Ids(c.outbox)
      && 0 < amount <= c.payments[p].amount - c.payments[p].amountRefunded
    ensures var c := Run(Genesis(profile, eventId, now), history);
      Execute(c, Tx(CreateRefund(r, p, amount), e, at)).Ok? <==> Sum(c.payments, All, Balance) - amount <= MAX_CENTS
  {
    GenesisIsGood(profile, eventId, now);
    ReachableIsGood(Genesis(profile, eventId, now), history);
    AcceptedByLedger(Run(Genesis(profile, eventId, now), history), r, p, amount, e, at);
  }

  lemma AcceptedByLedger(c: Core, r: Id, p: Id, amount: Cents, e: Id, at: Time)
    requires p in c.payments && Succeeded(c.payments[p].status) && r !in c.refunds && e !in Ids(c.outbox)
    requires 0 < amount <= c.payments[p].amount - c.payments[p].amountRefunded <= MAX_CENTS
    ensures Execute(c, Tx(CreateRefund(r, p, amount), e, at)).Ok? <==> LedgerSum(c.ledger) - amount <= MAX_CENTS
  {
    OutboxUntouched(c, CreateRefund(r, p, amount), at);
  }

  // A history after which that fails: one captured payment of the largest amount.

  function LargestPayment(s: Status, at: Time): Payment { Payment(7, MAX_CENTS, s, "card", 0, 2, at) }

  const LARGEST: seq<Command> := [CreateCustomer(7, "c", None), CreatePayment(8, 7, MAX_CENTS, "card"),
                                  TransitionPayment(8, Authorized), TransitionPayment(8, Captured)]

  function LargestHistory(n: nat): seq<Tx>
    requires n <= 4
  {
    seq(n, i requires 0 <= i < n => Tx(LARGEST[i], i + 1, i + 1))
  }

  lemma {:induction false} LargestStep(start: Core, n: nat)
    requires n < 4
    ensures var c := Run(start, LargestHistory(n));
      Run(start, LargestHistory(n + 1)) == After(c, Execute(c, Tx(LARGEST[n], n + 1, n + 1)))
  {
    var h := LargestHistory(n + 1);
    assert h[..|h| - 1] == LargestHistory(n);
  }

  ghost predicate Largest(c: Core, n: nat, s: Status, ledger: seq<LedgerEntry>) {
    && 7 in c.customers && 8 in c.payments && c.payments[8] == LargestPayment(s, n)
    && c.ledger == ledger && c.refunds == map[]
    && (forall i :: 0 <= i < |c.outbox| ==> c.outbox[i].id <= n)
  }

  lemma LargestOpened(profile: Profile)
    ensures Largest(Run(Genesis(profile, 0, 0), LargestHistory(2)), 2, Created,
                    [LedgerEntry(8, None, PaymentCreatedEntry, MAX_CENTS, MAX_CENTS)])
  {
    var start := Genesis(profile, 0, 0);
    LargestStep(start, 0);
    LargestStep(start, 1);
    assert Run(start, LargestHistory(0)) == start;
    var c := Run(start, LargestHistory(1));
    assert 7 in c.customers && c.payments == map[] && c.ledger == [];
    assert [] + [LedgerEntry(8, None, PaymentCreatedEntry, MAX_CENTS, MAX_CENTS)]
        == [LedgerEntry(8, None, PaymentCreatedEntry, MAX_CENTS, MAX_CENTS)];
  }

  lemma {:induction false} LargestMoved(c: Core, n: nat, s: Status, target: Status, ledger: seq<LedgerEntry>)
    requires Largest(c, n, s, ledger) && target in Allowed(s) && LedgerSum(ledger) <= MAX_CENTS
    ensures Largest(After(c, Execute(c, Tx(TransitionPayment(8, target), n + 1, n + 1))), n + 1, target,
      if target == Captured then ledger + [LedgerEntry(8, None, PaymentCapturedEntry, MAX_CENTS, LedgerSum(ledger))]
      else ledger)
  {
    assert ledger + [] == ledger;
  }

  lemma {:induction false} LargestRefused(c: Core, ledger: seq<LedgerEntry>, r: Id, e: Id, at: Time)
    requires Largest(c, 4, Captured, ledger) && LedgerSum(ledger) == 2 * MAX_CENTS && e > 4
    ensures Execute(c, Tx(CreateRefund(r, 8, 1), e, at)) == Err(NumericOverflow)
  {
  }

  lemma TwoEntries(a: LedgerEntry, b: LedgerEntry)
    ensures LedgerSum([a]) == Signed(a) && LedgerSum([a] + [b]) == Signed(a) + Signed(b)
  {
    LedgerAppend([], a);
    LedgerAppend([a], b);
    assert [] + [a] == [a];
  }

  lemma LargestTwoMoves(c2: Core, c3: Core, c4: Core, first: LedgerEntry, second: LedgerEntry)
    requires first == LedgerEntry(8, None, PaymentCreatedEntry, MAX_CENTS, MAX_CENTS)
    requires second == LedgerEntry(8, None, PaymentCapturedEntry, MAX_CENTS, MAX_CENTS)
    requires Largest(c2, 2, Created, [first])
    requires c3 == After(c2, Execute(c2, Tx(LARGEST[2], 3, 3))) && c4 == After(c3, Execute(c3, Tx(LARGEST[3], 4, 4)))
    ensures Largest(c4, 4, Captured, [first] + [second])
  {
    TwoEntries(first, second);
    LargestMoved(c2, 2, Created, Authorized, [first]);
    LargestMoved(c3, 3, Authorized, Captured, [first]);
  }

  lemma LargestCaptured(profile: Profile, first: LedgerEntry, second: LedgerEntry)
    requires first == LedgerEntry(8, None, PaymentCreatedEntry, MAX_CENTS, MAX_CENTS)
    requires second == LedgerEntry(8, None, PaymentCapturedEntry, MAX_CENTS, MAX_CENTS)
    ensures Largest(Run(Genesis(profile, 0, 0), LargestHistory(4)), 4, Captured, [first] + [second])
  {
    var start := Genesis(profile, 0, 0);
    LargestOpened(profile);
    LargestStep(start, 2);
    LargestStep(start, 3);
    LargestTwoMoves(Run(start, LargestHistory(2)), Run(start, LargestHistory(3)), Run(start, LargestHistory(4)),
                    first, second);
  }

  /** Then even a refund of one cent is refused. */
  lemma RefundCanBeRefused(profile: Profile, r: Id, e: Id, at: Time)
    requires e > 4
    ensures var c := Run(Genesis(profile, 0, 0), LargestHistory(4));
      && 8 in c.payments && c.payments[8] == LargestPayment(Captured, 4) && r !in c.refunds
      && Execute(c, Tx(CreateRefund(r, 8, 1), e, at)) == Err(NumericOverflow)
  {
    var first := LedgerEntry(8, None, PaymentCreatedEntry, MAX_CENTS, MAX_CENTS);
    var second := LedgerEntry(8, None, PaymentCapturedEntry, MAX_CENTS, MAX_CENTS);
    TwoEntries(first, second);
    LargestCaptured(profile, first, second);
    LargestRefused(Run(Genesis(profile, 0, 0), LargestHistory(4)), [first] + [second], r, e, at);
  }
}
