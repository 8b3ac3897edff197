# PaymentFlow verification model

A Dafny model of the payment platform's money pipeline, with proofs that hold over every run, and of three
state machines beside it.

**The pipeline.** A merchant's write tables (payments, refunds, an append-only ledger) change in transactions
that append one domain event each. A worker copies pending events of all merchants to a topic, oldest first and
at least once. A consumer claims each event id and folds the event into denormalised, pre-aggregated read tables.

| file | what it holds |
|---|---|
| `Domain`, `Sums`, `Aggregates` | values, sums over maps, sums over a payments table |
| `CoreTables`, `CoreInvariants`, `BalanceLimit`, `CommandLaws` | the write side as a class proved against a specification, what every history keeps, and the tables told from the accepted commands alone |
| `ReadTables`, `Projection`, `Replay`, `Analytics`, `Rates`, `DailyRefunds`, `Redelivery` | the handlers as a class proved against a specification, the read tables against a recompute, and what handling an event twice would do |
| `Outbox`, `SyncConsumer` | worker and consumer as methods proved against specifications |
| `Staging`, `Pipeline`, `EndToEnd`, `Faults` | order of first occurrences, one merchant's lane as a state machine, its guarantees, and what faults leave behind |
| `Interleaving`, `SharedSystem`, `SystemBooks`, `Simulation`, `SharedEndToEnd` | all merchants on one outbox, one partitioned topic and one read database, simulated by lanes |
| `RateLimiter`, `Pagination`, `PageLaws`, `LiveTraversal`, `IncrementalSync`, `WebhookRetry` | sliding-window limiter, keyset paging (alone, during live transactions, and resumed), webhook retries |

Each class works in place, as its source does; its methods' postconditions tie the new tables to a
specification function (`Execute`, `Apply`, `Sync`, `Process`, `Worked`, `Retried`, ...), and the lemmas are
about those functions over whole histories. What a function answers is stated a second time without it:
`CommandLaws` from the accepted commands, `PageLaws` from the query parameters, `Rates.StoredRateIsNearest`,
`RateLimiter.VerdictFromHistory` and `WebhookRetry.ChainSchedule` in numbers.

The central results are `EndToEnd.ReadSideIsPast` and `EndToEnd.QuiescentIsCurrent`, and for all merchants
together `SharedEndToEnd.EveryMerchantShowsPast` and `SharedEndToEnd.QuietMerchantIsCurrent`: for every
interleaving of commits, polls that may die anywhere, and a consumer that may die, lose acknowledgements and be
rewound, the read tables equal a from-scratch recompute of a state the write tables were in, and of the current
state once everything is delivered. They rest on `Projection.ApplyKeeps` (one handler), `Replay.ReplayInStep` (a
whole history), `Pipeline.RunInOrder` (the machine) and `SharedEndToEnd.Simulated` (the shared system). What a run
must not do for this is characterised exactly by `Pipeline.OrderIff`, `Pipeline.NothingLostIff` and
`EndToEnd.AllAppliedIff`.

Amounts are whole cents (the columns are DECIMAL(12,2)) and times whole microseconds. Lemmas that speak of
recursive functions carry `{:induction false}`, so each proof is the one written down.

## Hypotheses

- A merchant's write transactions are serial, and there is one outbox worker. Events of the shared table carry
  times in commit order (`SharedSystem.Enabled`, `Outbox.InCommitOrder`).
- Sends may raise. Where order matters the lemmas ask for polls without a gap (`Pipeline.Orderly`), and where
  completeness matters for polls that mark no rejected new record (`Pipeline.Faithful`); in `SharedEndToEnd` no
  send raises.
- The read side equals a past state for runs in which no claiming step crashes or raises before its handler is
  done (`EndToEnd.Harmless`); `EndToEnd.ClaimDiscipline` and `EndToEnd.FateIff` cover all runs.
- The limiter has a fixed limit and window and a clock that is positive and never runs backwards; member ids
  are new.
- `NoRowSkipped` assumes that rows change at times later than everything seen; `NoPaymentSkipped` and `StaleIff`
  derive this from the write side with increasing transaction times.

## What the proofs found

Where code and documentation differ the model follows the code.

- ARCHITECTURE.md line 483 promises full or partial refunds. The ledger counts a captured payment twice, so
  balance_after can be too large for its DECIMAL(12,2) column when a refund is booked, and the refund is
  refused although the amount remains (`BalanceLimit.RefundAcceptedIff`, `BalanceLimit.RefundCanBeRefused`).
- A captured ledger row's balance leaves out its own amount, which later rows include
  (`CoreInvariants.LedgerMatchesPayments`).
- The read side never shows `settled`, and its payments' amount_refunded stays 0
  (`Replay.ReplayInStep`, `Analytics.DenormalisedIsJoin`).
- A refund reaches the daily row of its own date only if that date already had a payment
  (`DailyRefunds.DailyRefundsExact`).
- The stored success rate is not recomputed on payment creation: it is the rate as of the payment count at the
  last capture or failure (`Rates.StoredRateIs`), so it is exact until the next payment of the method
  (`Rates.RateExactUntilNextPayment`) and may overstate after (`Rates.RateCanOverstate`), never understate
  (`Analytics.AggregatesAreSane`).
- The worker marks what it fetched, not what was accepted, so an event whose send raised in a committed poll
  never reaches the topic afterwards (`Outbox.PollDeliversIff`, `Outbox.RejectedIsLost`); and a raised send
  followed by a crash and a resend breaks the order (`Outbox.RejectedSendReorders`, `Staging.SendStagedIff`).
- ARCHITECTURE.md line 1226 calls the claim safe to replay. It commits before the handler, and a fate is final
  (`EndToEnd.FatesAreFinal`): everything is applied if and only if no claiming step fails in between
  (`EndToEnd.AllAppliedIff`). If a crash there hits the merchant's first event, the merchant's whole read side
  is lost (`EndToEnd.LostMerchantStaysLost`).
- The same line counts the upserts as idempotency. A created, captured or failed event that is handled again is
  counted again (`Redelivery.HandledTwiceIff`, `Redelivery.WouldCountAgain`); only the claim prevents it.
- An offset commit that raises right after a handler dead-letters an event that was applied
  (`EndToEnd.DeadLetteredToo`).
- Rejected requests are recorded too, so waiting exactly retry_after is enough only if two more of the counted
  attempts have left than a free place needs (`RateLimiter.RetryAfterSufficesIff`), which with distinct times
  never happens while the oldest entry has a second to live (`RateLimiter.RetryAfterIsTooShort`).
- README.md line 48 of the repository speaks of a token bucket; the code is a sliding-window log.
- A refund does not touch its payment's updated_at, so a client that pages once and then asks for what is newer
  misses exactly the refunds (`IncrementalSync.StaleIff`); and a page's total_count is what remains after its
  cursor (`Pagination.GetPayments`).
- A comment on dispatch says client errors are not retried; the retry job retries every failure
  (`WebhookRetry.DeliveredIff`).

## Model

| member | source | states |
|---|---|---|
| CoreTables.CoreDb.CreateMerchant | services/payment-core-service/src/services/merchant_service.py:8-111 | A new merchant starts with empty tables and an outbox that holds exactly its created event. |
| CoreTables.CoreDb.UpdateMerchantRow | services/payment-core-service/src/services/merchant_service.py:114-144 | Absent arguments keep their column; the new row is what the event carries; an aborted append restores the old row. |
| CoreTables.CoreDb.EmitEvent | services/payment-core-service/src/utils/event_emitter.py:6-28 | The event is appended in the caller's transaction; if its id is taken everything since the snapshot is undone. |
| CoreTables.CoreDb.InsertCustomer | services/payment-core-service/src/services/customer_service.py:8-32 | Row and event appear together or not at all; a duplicate id is refused. |
| CoreTables.CoreDb.ChangeCustomer | services/payment-core-service/src/services/customer_service.py:35-68 | COALESCE semantics per column, unknown customers are reported, and the event carries the row as stored. |
| CoreTables.CoreDb.RemoveCustomer | services/payment-core-service/src/services/customer_service.py:71-94 | A customer that payments refer to is not deleted; otherwise the row goes and the event is appended, nothing else. |
| CoreTables.CoreDb.InsertPayment | services/payment-core-service/src/services/payment_service.py:15-70 | All error paths in order, the payment row, the created ledger row with its balance, and the event, or no change at all. |
| CoreTables.CoreDb.Transition | services/payment-core-service/src/services/payment_service.py:73-144 | Only edges of the table are taken; a capture adds a ledger row whose balance leaves out its own amount; row, ledger and event change together. |
| CoreTables.CoreDb.TouchPayment | services/payment-core-service/src/services/payment_service.py:147-186 | Only updated_at moves; the event carries the payment with its status unchanged. |
| CoreTables.CoreDb.InsertRefund | services/payment-core-service/src/services/refund_service.py:9-89 | Status and remaining-amount checks, reservation on the payment, refund row, ledger debit and event, atomically. |
| CoreTables.CoreDb.MarkRefundProcessed | services/payment-core-service/src/services/refund_service.py:92-135 | Only initiated refunds are processed, once; no money column moves. |
| CoreInvariants.Classified | services/payment-core-service/src/services/payment_service.py:15-186 | Every transaction that commits changes the money tables in one of five exactly described ways, whatever its command. |
| CoreInvariants.OneEventEach | services/payment-core-service/src/utils/event_emitter.py:6-28 | A commit appends exactly one event, with a fresh id and its own time, and leaves the earlier outbox as it was. |
| CoreInvariants.RefundRowsKept | services/payment-core-service/src/services/refund_service.py:27-57 | Every change keeps: reserved amount of each payment = sum of its refund rows, and the totals agree. |
| CoreInvariants.LedgerKept | services/payment-core-service/src/services/payment_service.py:49-59 | Every change keeps the signed ledger sum equal to the recompute over payments. |
| CoreInvariants.BalancesKept | services/payment-core-service/src/services/payment_service.py:116-127 | Every change keeps each stored balance equal to its prefix sum, inclusive or (captures) exclusive, and within its column. |
| CoreInvariants.EventMatches | services/payment-core-service/src/services/payment_service.py:79-143 | The event a transaction emits moves the status automaton exactly as the transaction moves the row. |
| CoreInvariants.GoodKept | services/payment-core-service/src/services/payment_service.py:15-186 | One step of the induction: no transaction breaks any of the write-side invariants. |
| CoreInvariants.ReachableIsGood | services/payment-core-service/src/services/payment_service.py:15-186 | All write-side invariants together hold after every history of transactions. |
| CoreInvariants.RefundsAreConserved | services/payment-core-service/src/services/refund_service.py:16-74 | In every reachable state amount_refunded = sum of refund rows = sum of refund_issued ledger rows, between 0 and the amount, and non-zero only if captured or settled. |
| CoreInvariants.LedgerMatchesPayments | services/payment-core-service/src/services/payment_service.py:49-59 | In every reachable state the signed ledger sum is amount, plus amount again if captured or settled, minus refunds, over all payments; every balance_after is the prefix sum the code means and non-negative. |
| CoreInvariants.CountsFollowTrack | services/payment-core-service/src/services/payment_service.py:8-12 | The place in the transition table decides how often each status event has occurred. |
| CoreInvariants.StatusEventsOccurOnce | services/payment-core-service/src/services/payment_service.py:79-143 | For every history each status event of a payment occurs at most once, and captured and failed never both. |
| CoreInvariants.UnbrokenIsLawful | services/payment-core-service/src/services/payment_service.py:8-12 | In any event sequence the automaton accepts, each event finds its payment where the table allows it. |
| CoreInvariants.TracesAreLawful | services/payment-core-service/src/services/payment_service.py:79-143 | For every history the events of each payment start with one created event and follow the table; refund events come only after the capture. |
| BalanceLimit.RefundAcceptedIff | services/payment-core-service/src/services/refund_service.py:26-30 | A refund within the remaining amount of a captured or settled payment is accepted if and only if the merchant's balance after it fits the balance_after column. |
| BalanceLimit.RefundCanBeRefused | services/payment-core-service/src/services/refund_service.py:61-74 | A concrete history (one captured payment of the largest amount) after which every one-cent refund is refused with an overflow. |
| CommandLaws.RefundBooksAmount | services/payment-core-service/src/services/refund_service.py:27-74 | An accepted refund of some amount stores that amount, lowers the remaining balance of its payment and the ledger sum by exactly it, and changes no other payment, refund or customer. |
| CommandLaws.PaymentBooksAmount | services/payment-core-service/src/services/payment_service.py:20-59 | An accepted payment is stored with the amount, customer and method asked for, raises the ledger sum by exactly the amount, and changes no other payment or refund. |
| CommandLaws.PaymentsAreAsAsked | services/payment-core-service/src/services/payment_service.py:15-186 | After every history each payment exists iff an accepted command created it, with the amount, customer and method of that command; its amount_refunded is the sum of the amounts of the accepted refunds for it, its status the last accepted target, its updated_at the last time a command other than a refund touched it. |
| CommandLaws.RefundsAreAsAsked | services/payment-core-service/src/services/refund_service.py:9-135 | After every history each refund exists iff an accepted command created it, for that payment and amount, and is processed iff a later accepted command processed it. |
| CommandLaws.CustomersAreAsAsked | services/payment-core-service/src/services/customer_service.py:8-94 | After every history a customer is there iff it was created since it was last deleted, with the name and the e-mail given last. |
| CommandLaws.ProfileIsAsAsked | services/payment-core-service/src/services/merchant_service.py:114-144 | After every history each column of the merchant is the value given last, or that of its creation. |
| CommandLaws.LedgerIsAsAsked | services/payment-core-service/src/services/payment_service.py:49-127 | After every history the signed ledger sum is the amounts of the accepted payments, plus those amounts again for captures, minus the amounts of the accepted refunds. |
| CommandLaws.LedgerRowsAreAsAsked | services/payment-core-service/src/services/refund_service.py:56-74 | After every history the ledger is row by row what the accepted commands booked: payment, refund, type, amount, and the balance as the code means it. |
| CommandLaws.LogReplays | services/payment-core-service/src/utils/event_emitter.py:6-28 | Rejected transactions leave no trace: the accepted ones alone lead to the same tables and outbox. |
| CommandLaws.EventsTell | services/payment-core-service/src/utils/event_emitter.py:6-28 | After every history the outbox is the created event and one event per accepted command, in order, with its id and time, and each carries the rows as that command left them. |
| CommandLaws.AcceptedIff | services/payment-core-service/src/services/payment_service.py:15-186 | After every history a command with a fresh event id is accepted if and only if the commands accepted before allow it, decided from their list alone (amounts and limits in numbers). |
| CommandLaws.RefundRejections | services/payment-core-service/src/services/refund_service.py:21-30 | Which error a refund with a valid amount is told: not found, the status, or the remaining amount. |
| CommandLaws.TransitionRejections | services/payment-core-service/src/services/payment_service.py:79-92 | Which error a transition is told, with the edges written out. |
| ReadTables.ReadDb.SyncCustomerCreated | services/connect-service/src/services/sync_service.py:59-72 | Upsert that keeps an existing customer's aggregates; no other table changes. |
| ReadTables.ReadDb.SyncCustomerUpdated | services/connect-service/src/services/sync_service.py:75-101 | The customer row and every copy of its name and e-mail in payments and refunds, and nothing else. |
| ReadTables.ReadDb.SyncCustomerDeleted | services/connect-service/src/services/sync_service.py:104-109 | Only the customer row goes. |
| ReadTables.ReadDb.SyncPaymentCreated | services/connect-service/src/services/sync_service.py:112-176 | Denormalised upsert, daily and per-method rows, and the customer's payment count. |
| ReadTables.ReadDb.UpdateStatus | services/connect-service/src/services/sync_service.py:262-268 | Status of one known payment; unknown payments are ignored. |
| ReadTables.ReadDb.SyncPaymentCaptured | services/connect-service/src/services/sync_service.py:193-233 | Status, success counts, rounded rate from the new count, and the customer's spending. |
| ReadTables.ReadDb.SyncPaymentFailed | services/connect-service/src/services/sync_service.py:236-259 | Status, failure count, and the rate recomputed from unchanged successes. |
| ReadTables.ReadDb.SyncRefundInitiated | services/connect-service/src/services/sync_service.py:271-314 | Denormalised refund row, the daily row only if the date has one, and the customer's spending. |
| ReadTables.ReadDb.SyncRefundProcessed | services/connect-service/src/services/sync_service.py:317-323 | Status of one known refund. |
| ReadTables.ReadDb.SyncMerchant | services/connect-service/src/services/sync_service.py:25-56 | Upsert on creation; an update touches only a merchant that is mirrored. |
| ReadTables.ReadDb.Dispatch | services/connect-service/src/services/sync_service.py:328-341 | The handler table; settled has no handler and changes nothing. |
| ReadTables.ReadDb.SyncEvent | services/connect-service/src/services/sync_service.py:9-20 | A handler that raises, for whatever reason, leaves every table as it was; otherwise the result is the specified one. |
| ReadTables.SyncFailsIff | services/connect-service/src/services/sync_service.py:9-20 | The handler of an event raises if and only if the event is about the merchant's own tables and these are missing or a column would overflow (bounds in numbers). |
| ReadTables.ReadDb.EnsureMerchantSchema | services/connect-service/src/services/schema_manager.py:6-20 | Creates empty tables once; an existing schema is left alone. |
| ReadTables.ReadDb.TryClaimEvent | services/connect-service/src/utils/idempotency.py:6-16 | True exactly for an id not claimed before; the id is claimed afterwards. |
| Projection.PaymentCreatedKeeps | services/connect-service/src/services/sync_service.py:112-176 | The created event turns read tables that equal the recompute into read tables that equal the recompute with the payment. |
| Projection.PaymentMovedKeeps | services/connect-service/src/services/sync_service.py:193-268 | The same for every status event, settled included, where the read side shows captured. |
| Projection.ApplyKeeps | services/connect-service/src/services/sync_service.py:328-341 | For every transaction: if the read tables equal the recompute of the core tables before it, then after handling its event they equal the recompute of the core tables after it. |
| Replay.BoundedKept | services/connect-service/src/services/sync_service.py:295-307 | Every handler keeps net = total - refunds on each daily row, and daily refunds within the refunds applied. |
| Replay.RateFalls | services/connect-service/src/services/sync_service.py:160-170 | One more payment without a success never raises the rounded rate, so a stored rate that is not recomputed never understates. |
| Replay.RatesKept | services/connect-service/src/services/sync_service.py:214-224 | Every handler keeps each stored rate a percentage that is not below the rounded quotient; after captured and failed it is the quotient. |
| Replay.OutcomesWithinCount | services/connect-service/src/services/sync_service.py:146-157 | Successes and failures are disjoint: together at most the count, for every date, method and customer. |
| Replay.TablesFit | services/connect-service/src/services/schema_manager.py:77-97 | Read tables that equal a recompute of a reachable core state overflow no DECIMAL column (that of the rate included). |
| Replay.HandleInStep | services/connect-service/src/services/sync_service.py:9-20 | For every commit from a reachable state the handler does not fail and the read side is level again. |
| Replay.ReplayInStep | services/connect-service/src/services/sync_service.py:112-323 | After every core history, folding the handlers over its events gives exactly the core tables: payments (settled shown as captured), refunds, customers with counts and spending, daily and per-method totals. |
| Replay.PrefixIsPast | services/payment-core-service/src/utils/event_emitter.py:6-28 | Every non-empty prefix of an outbox is the whole outbox of an earlier state of the same history. |
| Replay.ReadRefinesPast | services/connect-service/src/services/sync_service.py:112-323 | Whatever prefix of the outbox was folded in, the read side is the recompute of a past core state. |
| Analytics.SummaryIsSum | services/merchant-dashboard-service/src/routers/analytics.py:13-27 | The four numbers of the summary query, recomputed from the core payments. |
| Analytics.Partition | services/merchant-dashboard-service/src/routers/analytics.py:45-77 | Sums over the classes of any classification of payments add up to the sum over all of them. |
| Analytics.QueryPathsAgree | services/merchant-dashboard-service/src/routers/analytics.py:13-42 | In every reachable read state total revenue, payment, success and failed counts of the summary equal the sums of daily_revenue; the first three equal those of payment_method_stats. |
| Analytics.DenormalisedIsJoin | services/connect-service/src/services/sync_service.py:75-139 | In every reachable read state each payment's customer name and e-mail are its customer's current ones, each refund's columns are its payment's, and no payment lacks its customer. |
| Analytics.AggregatesAreSane | services/connect-service/src/services/sync_service.py:160-170 | In every reachable read state: rounded success rate <= stored rate <= 100.00, net = total - refunds, success + failed <= count, daily refunds within the refunds applied, spending never negative, no column overflows. |
| Rates.StoredRateIs | services/connect-service/src/services/sync_service.py:214-259 | After any history the stored rate of a method is today's successes over the number of its payments at the last capture or failure, rounded (0 before the first). |
| Rates.RateExactUntilNextPayment | services/connect-service/src/services/sync_service.py:214-259 | After any history, a capture or failure of the method, and any further transactions that create no payment of the method, the stored rate is the rounded recompute from the core payments. |
| Rates.NearestIsUnique | services/connect-service/src/services/sync_service.py:219-254 | At most one number of hundredths is nearest to a quotient, ties up. |
| Rates.StoredRateIsNearest | services/connect-service/src/services/sync_service.py:214-259 | After any history the stored rate is the nearest hundredth of a percent, ties up, to today's successes over the payments at the last capture or failure, as an inequality on sums; 0 before the first. |
| Rates.RateNearestUntilNextPayment | services/connect-service/src/services/sync_service.py:214-259 | From a capture or failure to the next payment of the method the stored rate is the nearest hundredth, ties up, to the successes over the count of the core payments. |
| Rates.RateCanOverstate | services/connect-service/src/services/sync_service.py:160-170 | A concrete history (one payment captured, another created) after which 100.00 is stored where the payments give 50.00. |
| DailyRefunds.DailyRefundsExact | services/connect-service/src/services/sync_service.py:295-307 | With increasing times the refund column of each daily row is exactly the sum of the refunds made that day after the day's first payment. |
| Aggregates.OnDateIff | services/connect-service/src/services/sync_service.py:141-142 | A payment counts for the UTC day within whose 86,400 seconds it was created. |
| Redelivery.HandledTwiceIff | services/connect-service/src/services/sync_service.py:112-323 | For all tables and events: handling an event twice equals handling it once if and only if it adds nothing to a count or an amount, stated per event on the rows that are there. |
| Redelivery.WouldCountAgain | services/connect-service/src/utils/idempotency.py:6-16 | On the read tables of any history a second handling of a created, captured or failed event of a known payment changes them: the upserts alone do not make a replay safe. |
| Redelivery.UpsertKeepsRow | services/connect-service/src/services/sync_service.py:127-143 | A conflicting insert changes the stored payment's status and nothing else of any payment. |
| Outbox.OutboxWorker.SendAll | services/payment-core-service/src/tasks/outbox_task.py:47-69 | The messages sent before a stop are the accepted ones of the batch's beginning, in order. |
| Outbox.OutboxWorker.PublishPendingEvents | services/payment-core-service/src/tasks/outbox_task.py:24-87 | For any batch, any rejected sends and any point of failure: what reaches the topic, and that rows are marked all together or not at all. |
| Outbox.PollTakesNext | services/payment-core-service/src/tasks/outbox_task.py:26-34 | With commit-ordered times the query's answer is the next rows of the outbox, as many as the limit allows, and marking them keeps the marked rows a prefix. |
| Outbox.SentOnlyAccepted | services/payment-core-service/src/tasks/outbox_task.py:47-69 | A message is on the topic if and only if it belongs to a row of the batch whose send was accepted. |
| Outbox.PollDeliversIff | services/payment-core-service/src/tasks/outbox_task.py:71-80 | A committed poll puts every row it marks on the topic if and only if no send raised. |
| Outbox.RejectedIsLost | services/payment-core-service/src/tasks/outbox_task.py:57-80 | After a committed poll and any commits and polls that follow, a fetched record is on the topic if and only if it was there before or this poll's send of it was accepted. |
| Outbox.SendsOnLane | services/payment-core-service/src/tasks/outbox_task.py:59-63 | On each merchant's key the sends of a poll, cut off anywhere and some of them rejected, are sends of that merchant's next records with the same outcomes. |
| Outbox.RejectedSendReorders | services/payment-core-service/src/tasks/outbox_task.py:57-69 | Two runs of the worker, the first with a raised send and a crash before its commit: the topic holds the second record, the first, and the second again, which is not outbox order. |
| Staging.SendStagedIff | services/payment-core-service/src/tasks/outbox_task.py:43-69 | For every batch from anywhere and every pattern of rejected sends, first occurrences stay in outbox order if and only if no accepted record comes after a new one that was not accepted; then the front is where the first such gap is. |
| SyncConsumer.InsertDeadLetter | services/connect-service/src/consumers/db_sync_consumer.py:62-66 | The first dead letter of an id stays. |
| SyncConsumer.ProcessMessage | services/connect-service/src/consumers/db_sync_consumer.py:39-67 | The whole effect of one message for every fault: malformed, duplicate, applied, dead-lettered, or lost in the claim window; and whether the process dies. |
| SyncConsumer.ConsumeFrom | services/connect-service/src/consumers/db_sync_consumer.py:32-75 | A run over the log processes it in order up to the first crash and commits everything but the message of the crash. |
| Pipeline.LoopIsLane | services/connect-service/src/consumers/db_sync_consumer.py:32-75 | A run of the consumer's loop is, step by step, a run of the state machine, with the same tables, claims and committed offset. |
| Staging.UnseenIsNext | services/connect-service/src/consumers/db_sync_consumer.py:50-53 | On a log in outbox order a message outside the prefix processed so far is the very next record of the outbox. |
| Pipeline.ClaimIsNext | services/connect-service/src/consumers/db_sync_consumer.py:50-53 | In order, a message that is not claimed yet is the first unhandled record of the outbox. |
| Pipeline.StepKeeps | services/connect-service/src/consumers/db_sync_consumer.py:32-75 | Commits, polls with rejected sends, consumption with any fault, and rewinds all keep the books: every claim is an outbox event handled once, and the read side is what the recorded fates leave. |
| Pipeline.RunSane | services/connect-service/src/consumers/db_sync_consumer.py:32-75 | The books are kept by every run, and the core is that of a history of transactions. |
| Pipeline.OrderIff | services/payment-core-service/src/tasks/outbox_task.py:43-87 | After any run first occurrences are in outbox order if and only if no poll of the run left a gap. |
| Pipeline.NothingLostIff | services/payment-core-service/src/tasks/outbox_task.py:57-80 | After any run the log is in order and shows every marked row if and only if no poll left a gap and none was marked with a new record rejected. |
| EndToEnd.FateIff | services/connect-service/src/consumers/db_sync_consumer.py:50-67 | For every run: an event was handled with a certain fate if and only if some step claimed it in a state, and with a fault, that lead to that fate. |
| EndToEnd.AllAppliedIff | services/connect-service/src/consumers/db_sync_consumer.py:50-67 | For every run whose polls leave no gap: every claimed event is applied if and only if every step that claims an event has neither a crash nor an exception before the handler is done. Faults on duplicates do not matter. |
| EndToEnd.DeadLetteredToo | services/connect-service/src/consumers/db_sync_consumer.py:55-67 | In such a run an applied event is dead-lettered as well if and only if the step that claimed it had its offset commit fail. |
| EndToEnd.EveryHandlerSucceeds | services/connect-service/src/services/sync_service.py:9-20 | For every history and every position, the handler of that event succeeds on the replay of those before it. |
| EndToEnd.ReadSideIsPrefixFold | services/connect-service/src/consumers/db_sync_consumer.py:32-75 | For every run with no gap and no fault at a claim the read side is the handlers' fold over exactly the claimed prefix of the outbox. |
| EndToEnd.ReadSideIsPast | services/connect-service/src/consumers/db_sync_consumer.py:32-75 | For every such run the read tables equal the recompute of a past core state, despite crashes, resends, redeliveries and faults on duplicates. |
| EndToEnd.QuiescentIsCurrent | services/connect-service/src/consumers/db_sync_consumer.py:32-75 | When no marked event was rejected and everything is published and processed, the read tables equal the recompute of the current core state. |
| EndToEnd.ClaimDiscipline | services/connect-service/src/consumers/db_sync_consumer.py:50-67 | For every run with every fault and any rejected sends: each claim is an outbox event handled once; applied, dead-lettered and lost ids make up the claims, lost apart from the others; without gaps the claims are the first events, in order. |
| EndToEnd.AppliedOrDead | services/connect-service/src/consumers/db_sync_consumer.py:50-67 | Without a crash in the claim window and without such a commit failure, claims are the disjoint union of applied and dead-lettered ids. |
| EndToEnd.FatesAreFinal | services/connect-service/src/utils/idempotency.py:6-16 | What became of a claimed event never changes in any continuation of the run: no second chance. |
| EndToEnd.LostMerchantStaysLost | services/connect-service/src/consumers/db_sync_consumer.py:50-57 | A crash in the claim window of a merchant's first event leaves the merchant's read side empty after every continuation. |
| Faults.FaultIsUntouched | services/connect-service/src/consumers/db_sync_consumer.py:50-67 | A claimed message whose handler raises, or before whose handler the process dies, changes no row; at most the merchant's empty tables appear; an exception stores the event, a crash does not, and no earlier dead letter changes. |
| Faults.FaultsLeaveNoTrace | services/connect-service/src/consumers/db_sync_consumer.py:32-75 | After every run with any rejected sends, crashes, exceptions and redeliveries the read side is the handlers' fold over exactly the applied events, possibly from the merchant's empty tables. |
| Faults.DeadLettersAreEvents | services/connect-service/src/consumers/db_sync_consumer.py:60-67 | After every run a dead letter holds the event that the outbox has under its id. |
| Interleaving.CommuteIffApart | services/connect-service/src/services/sync_service.py:9-56 | Handlers of two merchants commute on every database and pair of events if and only if the merchants have different schemas. |
| Interleaving.SliceIsReplay | services/payment-core-service/src/tasks/outbox_task.py:59-63 | Whatever is delivered in between, a merchant's part of the read database is the replay of its own events. |
| Interleaving.AnyMergeAgrees | services/payment-core-service/src/tasks/outbox_task.py:59-63 | Two interleavings of the same per-merchant sequences leave the same read database. |
| Interleaving.MergeIsOneByOne | services/payment-core-service/src/tasks/outbox_task.py:59-63 | Any interleaving leaves the read database that processing merchants one after another would. |
| SystemBooks.ActionSound | services/payment-core-service/src/tasks/outbox_task.py:24-87 | The shared system keeps its books: rows in commit order with the marked ones first, messages that are rows on their merchant's partition, offsets within the logs. |
| Simulation.SimPublish | services/payment-core-service/src/tasks/outbox_task.py:24-87 | A run of the worker over the rows of all merchants is, on each merchant's lane, one poll of that lane. |
| Simulation.SimRead | services/connect-service/src/consumers/db_sync_consumer.py:32-75 | Reading a message of a shared partition is a step of the lane it belongs to, and at most a rewind or an acknowledgement on the others. |
| Simulation.ActionSimulates | services/connect-service/src/consumers/db_sync_consumer.py:32-75 | Every action of the shared system (creation, transaction, worker run, read, reset) is on every lane one step or none. |
| SharedEndToEnd.Simulated | services/connect-service/src/consumers/db_sync_consumer.py:32-75 | For every run of the shared system and every merchant, the merchant's core, rows, messages, offsets, claims and slice of the read database are those of a run of its lane. |
| SharedEndToEnd.EveryMerchantShowsPast | services/connect-service/src/consumers/db_sync_consumer.py:32-75 | In every shared run without a raised send and without a fault at a claim, each merchant's slice of the read database equals the recompute of a state its write tables were in. |
| SharedEndToEnd.QuietMerchantIsCurrent | services/connect-service/src/consumers/db_sync_consumer.py:32-75 | Once every row is marked and a merchant's partition is read, its slice equals the recompute of its current write tables. |
| SharedEndToEnd.ReadDatabaseIsOneByOne | services/payment-core-service/src/tasks/outbox_task.py:59-63 | In such a run the whole read database is the one that processing the claimed events merchant after merchant would have given. |
| RateLimiter.RateLimiter.CheckRateLimit | services/connect-service/src/services/rate_limiter.py:40-91 | The new window of the one key it touches, and the whole verdict. |
| RateLimiter.RateLimiter.GetRateLimitStatus | services/connect-service/src/services/rate_limiter.py:93-130 | Prunes and reports; adds nothing. |
| RateLimiter.RateLimiter.CheckOauthRateLimit | services/connect-service/src/services/rate_limiter.py:132-168 | The same on a key of its own, with a fixed window and a fixed wait. |
| RateLimiter.RateLimiter.RecordAttempt | services/connect-service/src/services/rate_limiter.py:57-63 | The pipeline counts before it adds, and replaces the time to live. |
| RateLimiter.Oldest | services/connect-service/src/services/rate_limiter.py:70-72 | The score that no live entry is below. |
| RateLimiter.CountedIsRecent | services/connect-service/src/services/rate_limiter.py:57-63 | After every sequence of checks and status reads, at any later time, the pruned and possibly expired set is exactly the filter over all past attempts. |
| RateLimiter.SetIsWindow | services/connect-service/src/services/rate_limiter.py:57-63 | Right after a check the stored set is exactly the attempts, rejected ones included, of the last window. |
| RateLimiter.AllowedIff | services/connect-service/src/services/rate_limiter.py:65-91 | A request is allowed if and only if fewer attempts than the limit lie in the window, counted in the full history. |
| RateLimiter.RemainingIsExact | services/connect-service/src/services/rate_limiter.py:85-91 | `remaining` is the limit less all attempts of the window in the full history, this one included, and never negative. |
| RateLimiter.LooksAreHarmless | services/connect-service/src/services/rate_limiter.py:93-113 | Two histories with the same attempts and any status reads give the same verdict, in every field. |
| RateLimiter.SilenceHelps | services/connect-service/src/services/rate_limiter.py:57-68 | After a window of silence a positive limit allows the next request. |
| RateLimiter.NeverAboveLimit | services/connect-service/src/services/rate_limiter.py:53-91 | Over every run, every half-open interval of one window holds at most the limit of allowed requests. |
| RateLimiter.RetryAllowedIff | services/connect-service/src/services/rate_limiter.py:57-83 | After an attempt, a retry within the window is allowed if and only if at least (attempts counted at the time of the attempt) + 2 - limit of them have left by then. |
| RateLimiter.RetryAfterSufficesIff | services/connect-service/src/services/rate_limiter.py:68-83 | Waiting exactly retry_after is enough if and only if that many have left by then, or the wait is a whole window and the limit positive. |
| RateLimiter.RetryAfterIsTooShort | services/connect-service/src/services/rate_limiter.py:68-83 | In particular, with distinct attempt times a rejected client that waits exactly retry_after is rejected again whenever the oldest entry still had a second or more to live. |
| RateLimiter.VerdictFromHistory | services/connect-service/src/services/rate_limiter.py:65-91 | From the full history: a rejection's retry_after is the whole seconds until the oldest attempt of the window leaves it, 1 if less than a second is left; every reset_at is the whole second of the end of a window that starts now. |
| RateLimiter.OauthRetrySucceeds | services/connect-service/src/services/rate_limiter.py:152-160 | A client that waits the OAuth limiter's retry_after is allowed. |
| RateLimiter.OauthVerdict | services/connect-service/src/services/rate_limiter.py:132-168 | A rejection of the OAuth limiter says 60, and its window is 60 seconds. |
| Pagination.GetPayments | services/connect-service/src/services/bulk_service.py:131-205 | The assembled conditions select exactly the rows that match the filter and lie beyond the cursor; the page is the first `limit` of them, with the right cursor and has_more; the optional count leaves out what the cursor has passed. |
| Pagination.BuildConditions | services/connect-service/src/services/bulk_service.py:147-180 | For every row the list of conditions holds if and only if filter and cursor do. |
| Pagination.ResponseIsPage | services/connect-service/src/services/bulk_service.py:75-91 | The extra row decides has_more and is cut off; the cursor is the last row kept. |
| Pagination.Sorted | services/connect-service/src/services/bulk_service.py:184-193 | The order by (updated_at, payment_id): strictly ascending, same rows. |
| Pagination.NextRemaining | services/connect-service/src/services/bulk_service.py:151-155 | What lies beyond a page's cursor is exactly what the page left, in the same order, and is less. |
| Pagination.TraversalIsExact | services/connect-service/src/services/bulk_service.py:75-91 | On an unchanged table following the cursors ends, for every limit of at least one, and the pages together are the filtered table in key order. |
| Pagination.FetchedOrAhead | services/connect-service/src/services/bulk_service.py:75-91 | A fetch returns a row that is still to come, or its cursor stays before the row. |
| Pagination.NoRowSkipped | services/connect-service/src/services/bulk_service.py:151-205 | When rows are inserted and updated between fetches at later times, a traversal that ends returns every row that was there and kept matching. |
| PageLaws.RemainingIsWanted | services/connect-service/src/services/bulk_service.py:147-180 | What a query counts and pages over is exactly the rows that each parameter, spelt out one by one, asks for, beyond the cursor; a missing or empty method asks for nothing. |
| PageLaws.PageHoldsWanted | services/connect-service/src/services/bulk_service.py:131-205 | Every row of a page is the table's row of its id, has the wanted status and method, lies in the created range, is later than updated_since and beyond the cursor; the rows ascend by time and id, at most `limit` of them. |
| PageLaws.LeftForLater | services/connect-service/src/services/bulk_service.py:75-91 | A wanted row that is not on the page: the page is full, has_more is set, and the row comes after every row of the page. |
| PageLaws.HasMoreIff | services/connect-service/src/services/bulk_service.py:75-91 | has_more is true if and only if some wanted row beyond the cursor is not on the page. |
| PageLaws.NextIsLastRow | services/connect-service/src/services/bulk_service.py:75-91 | The next cursor is time and id of the page's last row, and exists if and only if there is more. |
| PageLaws.EmptyMethod | services/connect-service/src/services/bulk_service.py:162-165 | A page for an empty method is a page for no method, and the other way round. |
| PageLaws.GivenMethod | services/connect-service/src/services/bulk_service.py:162-165 | With a method the rows are those without it that have this method. |
| PageLaws.TraversalHoldsWanted | services/connect-service/src/services/bulk_service.py:75-91 | Following the cursors over an unchanged table shows a row if and only if every parameter asks for it, in ascending order, none twice. |
| LiveTraversal.HistoryMoves | services/payment-core-service/src/services/payment_service.py:94-104 | Between two points of a core history payment keys only move past everything seen at the first. |
| LiveTraversal.NoPaymentSkipped | services/connect-service/src/services/bulk_service.py:131-205 | While a merchant's transactions go on at increasing times, a traversal that ends has returned every payment that was there at its start and kept matching, for every filter. |
| LiveTraversal.NoPaymentSkippedFromStart | services/connect-service/src/services/bulk_service.py:131-205 | Without a status in the filter it is enough that the payment matched at the start. |
| IncrementalSync.KeyMovesIff | services/payment-core-service/src/services/refund_service.py:34-38 | A transaction later than every row moves the key of a payment it changes if and only if it is not a refund. |
| IncrementalSync.TimeStaysIff | services/payment-core-service/src/services/refund_service.py:34-38 | Over any stretch of a history a payment keeps its updated_at if and only if only refunds changed it. |
| IncrementalSync.StaleIff | services/connect-service/src/services/bulk_service.py:151-180 | A client pages through a merchant's payments during live transactions and later goes on from its last cursor, or with updated_since: it is left with a stale row if and only if the row changed since it was returned last and each of its changes was a refund. |
| WebhookRetry.WebhookStore.DispatchWebhook | services/connect-service/src/services/tp_webhook_service.py:210-287 | One request, and a row with one attempt whose status follows the answer. |
| WebhookRetry.WebhookStore.RetryDelivery | services/connect-service/src/tasks/tp_webhook_retry_task.py:94-173 | One run of the job: every branch, with the whole new store and the delay of the next run. |
| WebhookRetry.WebhookStore.MoveToDlq | services/connect-service/src/services/tp_webhook_service.py:319-343 | Adds the entry and closes the row; an unknown delivery changes nothing. |
| WebhookRetry.WebhookStore.DlqRetry | services/connect-service/src/tasks/tp_webhook_retry_task.py:187-233 | An entry is removed if and only if its endpoint is active and accepts; the delivery row is not touched. |
| WebhookRetry.DelayBounds | services/connect-service/src/services/tp_webhook_service.py:34-38 | With any jitter in its range the truncated delay is within a fifth of the base delay. |
| WebhookRetry.ChainSchedule | services/connect-service/src/services/tp_webhook_service.py:25-38 | In every chain the run that raises attempts to 2, 3, 4, 5, 6 and is refused reschedules within 240-360, 1440-2160, 5760-8640, 69120-103680, 69120-103680 seconds, and the row's next_retry_at is the run's time plus that delay. |
| WebhookRetry.DelaySlots | services/connect-service/src/services/tp_webhook_service.py:34-38 | The delay that follows each attempt, in seconds, for every jitter. |
| WebhookRetry.DispatchAnswered | services/connect-service/src/services/tp_webhook_service.py:210-287 | A first dispatch is delivered iff the answer is a 2xx, with one attempt, the answer's code and no retry time; no other row changes. |
| WebhookRetry.RunAccepted | services/connect-service/src/tasks/tp_webhook_retry_task.py:138-154 | An accepted run within the maximum delivers, keeps the code of the answer, and is the last. |
| WebhookRetry.RunStep | services/connect-service/src/tasks/tp_webhook_retry_task.py:94-173 | One run keeps the chain waiting with one more attempt, or ends it in exactly one of the two ways. |
| WebhookRetry.ChainIsSound | services/connect-service/src/tasks/tp_webhook_retry_task.py:94-173 | For every sequence of answers and endpoint changes a chain is waiting, delivered without a dead letter, or dead with exactly one; attempts = requests, backoff within the summed jitter bounds. |
| WebhookRetry.ChainTerminates | services/connect-service/src/tasks/tp_webhook_retry_task.py:108-114 | From a refused first dispatch every chain is over within the maximum number of runs; attempts equal all requests made and never exceed the maximum. |
| WebhookRetry.ExhaustedBackoff | services/connect-service/src/services/tp_webhook_service.py:25-38 | A chain that used up its attempts waited between 145680 and 218520 seconds in all. |
| WebhookRetry.DeliveredIff | services/connect-service/src/tasks/tp_webhook_retry_task.py:110-173 | A chain ends delivered if and only if some run within the maximum is accepted and the endpoint stayed active up to it. |

## Left out

- ReadTables.ReadDb.SyncPaymentCreated: does not model updated_at and last_payment_at, descriptions, metadata, phone numbers, failure texts and currencies, which no aggregate reads; amounts are summed across currencies as in the code.
- ReadTables.ReadDb.SyncRefundInitiated: does not model the conversion of payment_amount to a float.
- ReadTables.ReadDb.SyncMerchant: does not model that names and e-mails must fit their columns.
- ReadTables.ReadDb.EnsureMerchantSchema: does not model a crash between its separate statements.
- Replay.TablesFit: covers the DECIMAL columns; 32-bit overflow of the integer counters is not modelled.
- Replay.RatesKept: does not model the finite precision of the intermediate DECIMAL quotient before it is rounded.
- CoreTables.CoreDb.InsertPayment: does not model isolation anomalies of balance_after under READ COMMITTED; transactions are serial.
- CoreTables.CoreDb.CreateMerchant: does not model the uniqueness of merchant e-mails and the generation of keys and schema names.
- CoreTables.CoreDb.InsertRefund: internal BIGINT ids are identified with the public UUIDs; the foreign keys make the joins succeed.
- Analytics.QueryPathsAgree: covers the four numbers that daily_revenue stores too and sums all of its days; the averages, the refund total of processed refunds and the `days` limit of the chart are not modelled.
- SyncConsumer.ProcessMessage: does not model an offset commit that raises on a malformed or duplicate message; the machine in Pipeline covers it as a lost acknowledgement and a rewind.
- Simulation.ActionSimulates: leaves out the dead-letter table, which is kept per lane, and malformed messages, which no worker sends.
- SharedEndToEnd.EveryMerchantShowsPast: asks that no send raises at all, where a lane needs only polls without a gap.
- RateLimiter.RateLimiter.CheckRateLimit: does not model the lookup of a consumer's limits, which are parameters, nor the rounding of floating-point seconds.
- Pagination.GetPayments: customers, refunds and events are paged by the same query with other columns, and are not modelled again; a status that is not one of the five selects nothing and is not modelled; cursors are pairs, without their encoding.
- WebhookRetry.ChainTerminates: is about one chain on one delivery; concurrent chains, and what starts the first retry, are not modelled.
- WebhookRetry.WebhookStore.MoveToDlq: does not model a crash between its two statements.
- The schema and id caches (bulk_service, merchant_service) would add only look-ups with an expiry.
- Wildcard matching of event types and endpoint management are single-branch membership tests and row edits.
- Front ends, routers, OAuth, signatures, monitoring and deployment are not part of this model.
