# Wallet ledger

A model of the wallet's money ledger and proofs about it. Customers and merchants hold balances. Top-ups and
withdrawals reserve an amount and are settled later by webhook deliveries of the payment gateway; transfers,
payments and refunds move money at once. Every movement appends entries to a log, and every update of a balance
row is a compare-and-set on its version column. Two smaller components stand beside the ledger: the idempotency
middleware and the fixed-window rate limiter.

The project has five layers.

- **Serial specification** (`Ledger`, `Serial`). The tables are a value `State`; each money operation is a
  function from a state to a committed state or an error. 64-bit columns truncate explicitly (`Base.Int64`).
- **Service contract** (`Replies`, `Lifecycles`). When each operation is accepted, what it then writes and which
  reply each refusal gives, with every cap, window, prefix and name written out; and what becomes of a reservation
  or a payment when anything runs before its delivery, its refund request or its refund.
- **Theorems about runs** (`Entries`, `View`, `Versions`, `Conservation`, `Webhooks`, `Deliveries`, `Reordering`,
  `Solvency`, `Overdraft`, `Inflight`, `Refunds`, `Revenue`). They hold for every sequence of operations from empty
  tables.
- **Concurrency** (`Protocol`, `Commits`, `Serializability`, `Interleavings`, `OneWorker`, and the converse in
  `Alone`, `SerialRuns`, with runs of the system in `SecondWorker` and `SecondEvent`). Each operation is a program of
  single statements, computed from what its earlier statements returned. Any number of clients interleave statement
  by statement, abort or get lost at any point. Every reachable database is shown to be the serial run of the
  committed operations in commit order, so the theorems about runs carry over. Conversely a client that nobody
  disturbs ends as its serial operation, failing or not, so serial runs are runs of the system.
- **Code** (`Store`, `Wallets`, `Payments`, `Worker`, with `Draining` for the loop). Classes with the fields the
  program updates in place: mutable big integers that alias as they do in the program, structs filled by getters,
  the database with its open transaction. Each method is proved to leave the tables and return the error of its
  serial operation. The closures passed to `WithTx` are methods of their own (`...Tx`), and the statements at
  their end another one (`...Writes`).

`Amounts`, `Idempotency` and `Limiter` stand on their own.

## Assumptions

- The database runs at Read Committed (section 13.2.1 of the PostgreSQL 16 documentation): a statement sees what
  is committed when it executes, a matched update or a new unique key is locked until its transaction ends, and a
  client that needs a locked row waits and then looks at the committed row.
- Uuids, gateway references and clock readings are arguments of the operations; nothing is assumed about them, so
  clashes end in the unique violation they cause.
- Identity, email, user and merchant lead to fixed balances, and none of them to `@World` or `@Revenue`, which
  have no identity. A run starts from existing balances with zero amounts and version 0.
- What texts big.Rat reads, and how, is a parameter of the services; where it matters it is asked to read signed
  decimals by their digits (`Amounts.ReadsDecimals`). Fractions, exponents and other bases may be read or refused.
- `DoRefund` names the request its claim will pick; `Protocol.Picks` makes that an oldest unlocked pending one.

## Where the code keeps less than it seems to promise

- Amounts may be negative: nothing refuses them, and only the paying side is checked. `Solvency.NoOverdraft`
  therefore asks for non-negative amounts; `Overdraft.ApplySolventIff` says for every operation exactly when it keeps
  balances non-negative, `Overdraft.RunSolventIff` does so for whole runs, and `Overdraft.NegativeTransferOverdraws`
  and `Overdraft.NegativeWithdrawalCredits` give first operations of a fresh database that go wrong.
- A reservation is protected by event id, not by being settled: `Inflight.DeliveryExactIff` says when a delivery
  leaves the in-flight columns exact, `Inflight.SecondEventSettlesAgain` that any other event settles once more, and
  `SecondEvent.TwoEventsCreditTwice` is a run of the system in which a customer is credited twice.
- `MarkFailed` runs outside the transaction and does not look at the status it overwrites. With several workers it
  can hit a completed request: `Refunds.MarkFailedKeepsStep` says when, `SecondWorker.TwoWorkersFallOutOfStep` is a
  run of the system that does.
- Idempotency keys are unique across users and the stored body is a JSONB column, so the promise of idempotent
  operations (README.md, line 16 of the repository) holds under the condition of `Idempotency.ProtectedIff`;
  `Idempotency.TakenKeyRunsAgain` and `Idempotency.PlainTextRunsAgain` are requests for which it does not.
- Between its two critical sections the limiter admits callers it no longer should: `Limiter.LimitHolds` and
  `Limiter.LimitIsReached` give the exact overshoot. A timer that fires there is lost: `Limiter.RunTimedIff` says
  exactly when an address stays counted without a timer, and in the run of `Limiter.RefusedForGood` it is refused for
  ever after.
- An amount with a fraction of a centime is not rounded but read as another number:
  `Amounts.ExactIffWholeCentimes`, with `Amounts.ThirdDecimalMisread` and `Amounts.ThirdMisread` as inputs.

## Model

| member | source | states |
|---|---|---|
| Base.Int64 | internal/store/balance.go:286-288 | a value that fits a BIGINT column is stored unchanged |
| Base.Int64Add | internal/store/balance.go:286-288 | truncating a summand before or after adding gives the same column |
| Base.Int64Sub | internal/store/balance.go:286-288 | truncating a subtrahend before or after subtracting gives the same column |
| Store.BigInt.Add | internal/wallets/service.go:116 | the receiver is overwritten with the sum and handed back |
| Store.BigInt.Sub | internal/payments/service.go:124 | the receiver is overwritten with the difference and handed back, even when it is an operand |
| Store.BigInt.Mul | internal/payments/service.go:251 | the receiver is overwritten with the product and handed back |
| Store.BigInt.Div | internal/payments/service.go:253 | the receiver is overwritten with the Euclidean quotient and handed back |
| Store.BigInt.Cmp | internal/wallets/service.go:82 | the sign tells whether the receiver is below, at or above the argument |
| Store.Balance.constructor | internal/store/balance.go:88-111 | a fetched struct holds the row in three numbers of its own |
| Store.Database.BeginTx | internal/dbtx/db_tx_manager.go:20-24 | what is committed stays visible to statements outside the transaction |
| Store.Database.EndTx | internal/dbtx/db_tx_manager.go:26-31 | all writes of the closure stay when it returned nil, none otherwise |
| Store.Database.GetBy | internal/store/balance.go:78-112 | the joining getters read the committed rows even inside a transaction; no row means not found |
| Store.Database.GetByBalanceID | internal/store/balance.go:188-223 | reads the rows as the open transaction sees them; no row means not found |
| Store.Database.UpdateBalance | internal/store/balance.go:263-304 | compare-and-set: writes the three amounts and moves the version by one if and only if the version still matches, else nothing changes and the call reports a conflict |
| Store.Database.Record | internal/store/transactions.go:40-79 | appends the entry if its id and reference are new, else nothing changes and the call fails |
| Store.Database.GetByRef | internal/store/transactions.go:81-117 | returns the one entry with the reference, with its amount in a number of its own, or none |
| Store.Database.MarkProcessed | internal/store/webhook_event_ids.go:26-52 | the event is recorded afterwards, and the answer says whether it was new |
| Store.Database.Create | internal/store/refund_requests.go:31-55 | inserts the request unless its id is taken or the entry already has a pending one |
| Store.Database.ClaimPending | internal/store/refund_requests.go:57-86 | turns one oldest pending request into processing and returns it; none exactly when none is pending |
| Store.Database.UpdateStatus | internal/store/refund_requests.go:96-110 | overwrites the status of the named request whatever it was, and no other request |
| Store.OldestExists | internal/store/refund_requests.go:62-69 | among pending requests there is always an oldest one to claim |
| Wallets.Service.Topup | internal/wallets/service.go:76-129 | a top-up call ends exactly as the serial operation: same tables, same error, and a text the parser refuses changes nothing |
| Wallets.Service.TopupTx | internal/wallets/service.go:90-123 | the closure of a top-up logs the reservation and raises the in-flight credit, or fails with the serial error |
| Wallets.Service.TopupWebhook | internal/wallets/service.go:131-212 | a top-up delivery ends exactly as the serial one, including a void that commits and still returns the gateway failure |
| Wallets.Service.TopupWebhookTx | internal/wallets/service.go:156-197 | the closure of a top-up delivery settles its parent once the event is new, the balance exists and the child is insertable, else reports which of these failed |
| Wallets.Service.Withdraw | internal/wallets/service.go:214-277 | a withdrawal call ends exactly as the serial operation |
| Wallets.Service.WithdrawTx | internal/wallets/service.go:231-271 | the closure of a withdrawal logs the reservation and moves the amount from balance to in-flight debit, or fails with the serial error |
| Wallets.Service.PayoutWebhook | internal/wallets/service.go:279-359 | a payout delivery ends exactly as the serial one, including a void that commits and still returns the gateway failure |
| Wallets.Service.PayoutWebhookTx | internal/wallets/service.go:303-344 | the closure of a payout delivery settles its parent once the event is new, the balance exists and the child is insertable, else reports which of these failed |
| Wallets.Service.Transfer | internal/wallets/service.go:361-430 | a transfer call ends exactly as the serial operation |
| Wallets.Service.TransferTx | internal/wallets/service.go:371-424 | the closure of a transfer checks in the order of the code and moves the amount between two distinct customer balances, or fails with the serial error |
| Wallets.Service.TransferWrites | internal/wallets/service.go:397-421 | the statements of a transfer debit one row and credit the other, each from its own version, after logging the entry |
| Payments.CalculateFeeCeil | internal/payments/service.go:250-255 | the fee is the least whole number of centimes that is at least 1.5 percent |
| Payments.Service.Pay | internal/payments/service.go:89-187 | a payment ends exactly as the serial operation at the original price, although the session amount is overwritten with the net |
| Payments.Service.PayTx | internal/payments/service.go:90-181 | the closure of a payment, with the checks in the order of the code |
| Payments.Service.PayWrites | internal/payments/service.go:117-178 | customer loses the original price, merchant gains the net, platform the fee, and both legs are logged; two updates of one balance fail |
| Payments.Service.SplitPrice | internal/payments/service.go:117-130 | the net returned is the session amount itself, overwritten; debit and fee were taken from it before |
| Payments.Service.RecordLegs | internal/payments/service.go:132-163 | both legs are logged, the fee as a child of the payment, or the call fails |
| Payments.Service.UpdateThree | internal/payments/service.go:165-178 | three versioned updates succeed exactly when the balances are distinct |
| Payments.Service.RequestRefund | internal/payments/service.go:189-234 | a refund request ends exactly as the serial operation |
| Payments.Service.RequestRefundTx | internal/payments/service.go:197-228 | an applied entry of at most thirty days gets one pending request, else the serial error |
| Worker.RefundWorker.RefundWrites | internal/refunds/worker.go:138-162 | the statements of a refund take the amount back from the merchant, return it to the customer and log the reversal; refunding a balance to itself conflicts |
| Worker.RefundWorker.Refund | internal/refunds/worker.go:118-165 | a refund under a claim, with the errors in the order of the code |
| Worker.ClaimedRefund | internal/refunds/worker.go:87-106 | claim, refund and completed mark together are the serial refund of the request as it was pending |
| Worker.RefundWorker.ProcessTx | internal/refunds/worker.go:87-106 | the closure refunds an oldest pending request, or reports that there is none |
| Worker.RefundWorker.ProcessOne | internal/refunds/worker.go:85-116 | the request becomes failed exactly when the merchant lacked funds; on any other error everything stays as it was |
| Worker.RefundWorker.ProcessAvailable | internal/refunds/worker.go:70-83 | the loop ends; it folds the serial refund over the pending requests oldest first up to the first failure; every other request keeps its status |
| Draining.DrainStep | internal/refunds/worker.go:70-83 | one round either extends the fold by a committed refund and leaves fewer requests pending, or ends the drain with that request failed or untouched |
| Draining.OldestFirstSnoc | internal/store/refund_requests.go:62-69 | claiming an oldest pending request keeps the picks in order of creation |
| Draining.ProcessedStatus | internal/refunds/worker.go:101-116 | a processed request becomes completed, failed, or stays pending, and no other request changes |
| Draining.FewerPending | internal/refunds/worker.go:70-83 | completing a request lowers the number of pending ones, which is why the loop ends |
| Ledger.FindAppend | internal/store/transactions.go:81-117 | an entry found by its reference is still found, unchanged, after any appends |
| Ledger.FindBefore | internal/store/transactions.go:81-117 | an entry that is not the newest was already found before the newest was logged |
| Ledger.PaymentStartsWithP | internal/payments/service.go:257-265 | a reference taken for a payment starts with the letter p |
| Ledger.FirstTokenAppend | internal/payments/service.go:257-265 | appending an underscore and a suffix, as refunds do, leaves the first token of a reference alone |
| Entries.DeliverySettlesItsOwnKind | internal/wallets/service.go:131-145 | a committed delivery settles a row of its own kind that is in flight: no child row, no reservation of the other kind, no transfer with a caller-chosen reference |
| Entries.RefundableIsMove | internal/payments/service.go:189-207 | an entry that a refund request can name is a transfer, a payment or a refund between two distinct user balances |
| Entries.TopupKeepsInv | internal/wallets/service.go:76-129 | a top-up only appends well-formed, uniquely referenced entries and neither adds nor removes a balance |
| Entries.WithdrawKeepsInv | internal/wallets/service.go:214-277 | a withdrawal only appends well-formed, uniquely referenced entries and neither adds nor removes a balance |
| Entries.WebhookKeepsInv | internal/wallets/service.go:131-212 | a delivery only appends well-formed, uniquely referenced entries and neither adds nor removes a balance |
| Entries.TransferKeepsInv | internal/wallets/service.go:361-430 | a transfer only appends well-formed, uniquely referenced entries and neither adds nor removes a balance |
| Entries.PayKeepsInv | internal/payments/service.go:89-187 | a payment only appends well-formed, uniquely referenced entries and neither adds nor removes a balance |
| Entries.RefundKeepsInv | internal/refunds/worker.go:118-165 | a refund only appends well-formed, uniquely referenced entries and neither adds nor removes a balance |
| Entries.RequestRefundKeepsInv | internal/payments/service.go:189-234 | a refund request only appends well-formed, uniquely referenced entries and neither adds nor removes a balance |
| Entries.MarkFailedKeepsInv | internal/store/refund_requests.go:92-110 | marking a request failed only appends well-formed, uniquely referenced entries and neither adds nor removes a balance |
| Entries.ApplyKeepsInv | internal/wallets/service.go:42-52 | every operation keeps the log well formed, append-only and uniquely referenced |
| Entries.RunKeepsInv | internal/wallets/service.go:42-52 | so does every run of operations |
| Serial.RunAllConcat | internal/dbtx/db_tx_manager.go:20-32 | running two sequences one after the other is running their concatenation |
| Replies.TopupReplies | internal/wallets/service.go:77-126 | a top-up is accepted if and only if it is at most 10000000 centimes, its wallet and @World exist, and id and reference are new; each refusal has its reply; an accepted one writes the in-flight credit and its entry only |
| Replies.WithdrawReplies | internal/wallets/service.go:215-271 | a withdrawal is accepted if and only if it is at most 5000000 centimes and at most the balance, wallet and @World exist, and id and reference are new; each refusal has its reply; what it writes |
| Replies.DeliveryReplies | internal/wallets/service.go:131-213 | each reply of a delivery if and only if its own check fails first: no parent, settled parent, report, event, balance, uniqueness |
| Replies.DeliveryAccepted | internal/wallets/service.go:156-197 | a success moves the in-flight amount to the balance or out, a failure back where it came from; one child entry, one event |
| Replies.TransferReplies | internal/wallets/service.go:361-430 | each reply of a transfer if and only if its own check fails first: cap of 5000000, payer, funds, receiver, oneself, merchant, uniqueness; what an accepted one writes |
| Replies.LegsDiffer | internal/payments/service.go:130-148 | the references of the two legs of a payment never clash |
| Replies.PayReplies | internal/payments/service.go:89-181 | each reply of a payment if and only if its own check fails first: payer, funds, merchant and platform, uniqueness of both legs, three distinct balances |
| Replies.PayAccepted | internal/payments/service.go:113-175 | the customer is charged the price, the platform gets its least whole 1.5 percent, the merchant the rest, and each leg is logged |
| Replies.FirstTokenIs | internal/payments/service.go:257-260 | the part before the first underscore is a given word if and only if the text is the word or goes on with an underscore |
| Replies.PaymentsByName | internal/payments/service.go:257-265 | the references taken for payments are the word payment and everything that begins with payment_ |
| Replies.RequestRefundReplies | internal/payments/service.go:189-228 | a refund can be requested if and only if the reference names an applied payment at most thirty days old, the id is new and no request for it is pending; each refusal has its reply |
| Replies.RefundReplies | internal/refunds/worker.go:87-165 | each reply of a refund if and only if its own check fails first: claim, entry, balances, funds, distinct balances, uniqueness |
| Replies.RefundAccepted | internal/refunds/worker.go:134-163 | the amount goes back from destination to source, the reversal is logged, the request is completed |
| Replies.MarkFailedAccepted | internal/store/refund_requests.go:92-110 | marking never fails and touches the status of that request only |
| Lifecycles.StaysFound | internal/store/transactions.go:40-111 | what is in the log is found by its reference whatever runs afterwards |
| Lifecycles.ReservationIsSettled | internal/wallets/service.go:131-213 | whatever runs in between, a delivery for a committed top-up or withdrawal is judged by its report, its event and its own uuids alone, and settles the amount reserved on the balance it was reserved on |
| Lifecycles.PaymentIsRefundable | internal/payments/service.go:197-228 | whatever runs in between, a refund of a committed payment can be requested for thirty days from its commit, unless the id is used or a request is pending |
| Lifecycles.RequestIsRefunded | internal/refunds/worker.go:118-165 | whatever runs in between, a waiting request for a payment is refunded if and only if the merchant still has the net price and the uuid is new |
| Lifecycles.RefundIsRefusedFor | internal/refunds/worker.go:87-165 | in a well-formed database a refund fails for want of a request, of funds or of a new uuid only |
| View.TopupFollowsLog | internal/wallets/service.go:101-118 | a top-up moves each column of each balance by exactly what the entries it logs say |
| View.WithdrawFollowsLog | internal/wallets/service.go:247-266 | a withdrawal moves each column of each balance by exactly what the entries it logs say |
| View.SettleFollowsLog | internal/wallets/service.go:171-192 | settling a reservation moves each column of each balance by exactly what the entries it logs say |
| View.WebhookFollowsLog | internal/wallets/service.go:156-197 | a committed delivery moves each column of each balance by exactly what the entries it logs say |
| View.TransferFollowsLog | internal/wallets/service.go:397-421 | a transfer moves each column of each balance by exactly what the entries it logs say |
| View.PayFollowsLog | internal/payments/service.go:117-178 | a payment moves each column of each balance by exactly what the entries it logs say |
| View.RefundFollowsLog | internal/refunds/worker.go:138-162 | a refund moves each column of each balance by exactly what the entries it logs say |
| View.FeeSplit | internal/payments/service.go:120-124 | for a price that fits a column net and fee are logged without truncation, and a non-negative price has a fee between zero and itself |
| View.ApplyFollowsLog | internal/wallets/service.go:42-52 | whatever the operation, columns move by exactly what the new entries say |
| View.ApplyKeepsView | internal/wallets/service.go:42-52 | every operation keeps the balances table equal to the fold of the log |
| View.BalancesAreViewOfLog | internal/wallets/service.go:42-52 | after any run from empty tables every balance, in-flight credit and in-flight debit is the fold of the whole log by kind, status, source and destination |
| Versions.ApplyVersions | internal/store/balance.go:270-301 | a committed operation writes each balance it touches once and moves its version by one; every other row is untouched |
| Versions.VersionCountsWrites | internal/store/balance.go:270-301 | no lost update: a version is the number of committed operations that wrote the row |
| Versions.VersionDeterminesRow | internal/store/balance.go:270-301 | versions never go back, and equal versions of a balance mean equal rows |
| Versions.NewerVersionHasAWriter | internal/store/balance.go:270-301 | two different versions have a committed writer between them |
| Conservation.SpreadIsBothSides | internal/wallets/service.go:101-109 | over all balances an entry counts once at its source and once at its destination |
| Conservation.FoldsConserve | internal/wallets/service.go:76-359 | balances plus in-flight debits equal applied top-ups minus applied withdrawals: transfers, payments, refunds, reservations and voids create nothing |
| Conservation.ReachableConserves | internal/wallets/service.go:76-359 | the same of the stored columns after any run, modulo their 64 bits |
| Conservation.WorldNeverWritten | internal/wallets/service.go:96-99 | the row of @World never changes |
| Solvency.ConservesExactly | internal/store/balance.go:286-288 | without the modulus, as long as amounts are non-negative and events and entries number at most 922337203685 |
| Webhooks.ApplyKeepsEventCount | internal/wallets/service.go:156-209 | an operation adds as many recorded events as settlement children |
| Webhooks.EventsMatchSettlements | internal/wallets/service.go:156-209 | after any run there are as many settlement children as recorded events |
| Deliveries.DeliveryEffect | internal/wallets/service.go:156-197 | a committed delivery records its event and logs its child, and nothing else |
| Deliveries.OthersSettleNothing | internal/wallets/service.go:42-52 | no other operation records an event or logs a settlement |
| Deliveries.EventWasDelivered | internal/wallets/service.go:156-197 | every recorded event has a committed delivery of the run that recorded it |
| Deliveries.SettlementWasDelivered | internal/wallets/service.go:156-197 | every settlement child was logged by a committed delivery of the run |
| Deliveries.DeliveriesDiffer | internal/wallets/service.go:156-197 | two deliveries of a run share neither event nor child |
| Deliveries.EventsAreSettlements | internal/wallets/service.go:156-209 | recorded events and settlement children correspond one to one, each pair through exactly one committed delivery |
| Webhooks.DuplicateRollsBack | internal/wallets/service.go:157-164 | a delivery of a recorded event is rolled back |
| Webhooks.RedeliveryIsInvisible | internal/wallets/service.go:156-209 | dropping every redelivery from a run, wherever it stands, leaves the same tables |
| Webhooks.CommittedEventsDiffer | internal/wallets/service.go:156-209 | two committed deliveries of one run carry different events |
| Webhooks.DeliveriesCommute | internal/wallets/service.go:156-209 | two committed deliveries commit in the other order as well, with the same tables up to log order |
| Reordering.DeliveryRespectsSame | internal/wallets/service.go:131-212 | a delivery behaves alike on tables that differ in log order only |
| Reordering.AnyOrder | internal/wallets/service.go:131-212 | committed deliveries, permuted in any way, all commit again and leave the same tables up to log order |
| Solvency.GrowthIsBounded | internal/wallets/service.go:17-19 | between any two points of a log all balances together grow by at most the top-up cap per settlement between them |
| Solvency.TotalIsBounded | internal/wallets/service.go:17-19 | all balances together are at most the top-up cap times the settlements |
| Solvency.RunGrowthIsBounded | internal/wallets/service.go:17-19 | from any point of a run on, the stored balances together grow by at most the cap per newly processed event, hence not at all without one |
| Solvency.ApplyIsCovered | internal/wallets/service.go:242-245 | with non-negative amounts what an operation takes from a balance is covered by that balance |
| Solvency.NoOverdraft | internal/payments/service.go:101-104 | with non-negative amounts and at most 922337203685 processed events no balance of any run is negative, and each column is the exact, unwrapped sum |
| Overdraft.SolventIffLands | internal/wallets/service.go:377-398 | for every operation and amount, however large: balances stay non-negative if and only if every sum written lands in the non-negative half of its column |
| Overdraft.ApplySolventIff | internal/wallets/service.go:242-266 | for sums that fit their columns: balances stay non-negative if and only if the credited side covers the amount - receiver of a transfer, merchant and @Revenue of a payment, settled balance of an applied top-up or a void payout, customer of a refund; every other operation always keeps them so |
| Overdraft.RunSolventIff | internal/payments/service.go:101-130 | no balance is negative at any point of a run if and only if every committed operation of it passes that test in its turn |
| Overdraft.TransferSolventIff | internal/wallets/service.go:377-398 | the transfer case for any amount: payer and receiver sums both land in the non-negative half |
| Overdraft.WithdrawCreditsIff | internal/wallets/service.go:242-266 | a committed withdrawal raises the balance at once if and only if its amount is negative |
| Overdraft.NegativeWithdrawalCredits | internal/wallets/service.go:242-266 | an empty wallet of a fresh database withdraws -10000 and holds 10000 |
| Overdraft.NegativeTransferOverdraws | internal/wallets/service.go:377-398 | the first operation of a fresh database, a transfer of -1, commits and overdraws the receiver |
| Inflight.InflightIsExact | internal/wallets/service.go:279-359 | if each gateway reference is reported under one event id, in-flight columns are the unsettled reservations, and non-negative for non-negative amounts |
| Inflight.DeliveryExactIff | internal/wallets/service.go:139-145 | a committed delivery keeps the in-flight columns exact if and only if no other event settled its reservation before |
| Inflight.SecondEventSettlesAgain | internal/wallets/service.go:139-164 | the status of a parent never changes, so a second event id settles the same reservation again |
| SecondEvent.NoLongerExact | internal/wallets/service.go:139-164 | after a top-up and its delivery the in-flight columns are exact, after a delivery of the same outcome under another event id they are not |
| SecondEvent.TwoEventsCreditTwice | internal/wallets/service.go:139-164 | a run of the system from a fresh database: topped up once with 1000, reported under two event ids, the customer holds 2000 and has -1000 in flight |
| Refunds.OneRefundEach | internal/refunds/worker.go:148-158 | every entry has at most one refund |
| Refunds.RefundOfReverses | internal/refunds/worker.go:148-158 | a refund found by its reference reverses exactly the entry it is named after |
| Refunds.ChainAlternates | internal/refunds/worker.go:148-158 | along refund, refund of the refund and so on, the amount returned is the root amount or nothing |
| Refunds.ChainIsClosed | internal/refunds/worker.go:148-158 | every refund that descends from an entry lies on that chain |
| Refunds.RunKeepsRequests | internal/refunds/worker.go:85-116 | with any number of workers: at most one pending and one completed request per entry, no request left processing, and a completed request has its refund in the log |
| Refunds.MarkFailedKeepsStep | internal/refunds/worker.go:107-115 | marking failed keeps refunds and completed requests in step if and only if the request was not completed meanwhile |
| Refunds.SingleWorkerBijection | internal/refunds/worker.go:85-116 | refund entries and completed requests correspond as long as no completed request is marked failed |
| Refunds.RefundedStaysCompleted | internal/refunds/worker.go:101-116 | under the same condition a request whose refund committed is completed for good |
| Refunds.FailedMovedNothing | internal/refunds/worker.go:107-115 | so a failed request moved no money: every refund attempted for it was rolled back |
| Refunds.PaymentRefundRoundTrip | internal/refunds/worker.go:118-165 | pay, anything in between, refund: every balance ends as without the two, except that the customer is short of the fee and the platform has it |
| OneWorker.NoFundsMeansPending | internal/refunds/worker.go:94-99 | a worker that finds no funds leaves a request that is still pending |
| OneWorker.SingleWorkerStaysInStep | internal/refunds/worker.go:70-116 | one worker among any number of other clients, interleaved statement by statement: refund entries and completed requests correspond |
| OneWorker.SingleWorkerFailedMovedNothing | internal/refunds/worker.go:70-116 | one worker among any other clients: no refund of a failed request was ever committed |
| SecondWorker.TwoWorkersFallOutOfStep | internal/refunds/worker.go:107-115 | a run of the system from a fresh database in which a second worker refunds a request the first then marks failed: the refund is logged, no request is completed |
| Revenue.RevenueOverRuns | internal/payments/service.go:250-255 | after any run @Revenue holds the logged fees modulo 2^64, and these are 1.5 percent of the logged volume up to rounding |
| Revenue.VolumeIsPrices | internal/payments/service.go:117-153 | the logged volume is the sum of the prices of the committed payments, the tally of fee entries their number |
| Revenue.RevenueColumnIsBounded | internal/payments/service.go:250-255 | for n committed payments of prices adding up to V the stored balance R of @Revenue satisfies 15 V <= 1000 R <= 15 V + 999 n, for non-negative amounts and at most 922337203685 events |
| Revenue.OnlyPayWritesRevenue | internal/payments/service.go:111-178 | a committed operation writes @Revenue if and only if it is a payment |
| Revenue.SplittingCosts | internal/payments/service.go:250-255 | splitting a purchase into m parts never lowers the fee and raises it by at most m - 1 centimes |
| Commits.WrittenRowIsFresh | internal/store/balance.go:270-301 | a row whose version still matches is the row that was read |
| Commits.TopupCommits | internal/wallets/service.go:90-123 | a top-up that reaches its commit has made the writes, and gives the reply, of the serial top-up on the tables it commits to, whatever was committed since its reads |
| Commits.WithdrawCommits | internal/wallets/service.go:231-271 | a withdrawal that reaches its commit has made the writes, and gives the reply, of the serial withdrawal on the tables it commits to, whatever was committed since its reads |
| Commits.WebhookCommits | internal/wallets/service.go:156-197 | a delivery that reaches its commit has made the writes, and gives the reply, of the serial delivery on the tables it commits to, whatever was committed since its reads |
| Commits.TransferCommits | internal/wallets/service.go:371-424 | a transfer that reaches its commit has made the writes, and gives the reply, of the serial transfer on the tables it commits to, whatever was committed since its reads |
| Commits.PayCommits | internal/payments/service.go:90-181 | a payment that reaches its commit has made the writes, and gives the reply, of the serial payment on the tables it commits to, whatever was committed since its reads |
| Commits.RequestRefundCommits | internal/payments/service.go:197-228 | a refund request that reaches its commit has made the writes, and gives the reply, of the serial refund request on the tables it commits to, whatever was committed since its reads |
| Commits.RefundCommits | internal/refunds/worker.go:87-106 | a refund that reaches its commit has made the writes, and gives the reply, of the serial refund on the tables it commits to, whatever was committed since its reads |
| Commits.MarkFailedCommits | internal/refunds/worker.go:111-113 | a failed mark that reaches its commit has made the writes, and gives the reply, of the serial failed mark on the tables it commits to, whatever was committed since its reads |
| Commits.CommitIsSerial | internal/dbtx/db_tx_manager.go:20-32 | the same for every operation |
| Serializability.UpdateUsesRead | internal/store/balance.go:283-292 | every update expects the version of a row the operation read |
| Serializability.SecondUpdateFails | internal/store/balance.go:283-292 | updating one balance twice from one version fails |
| Serializability.RequestStaysHeld | internal/store/refund_requests.go:57-86 | a claimed request stays written until its transaction ends |
| Serializability.WriteStaysDisjoint | internal/store/balance.go:270-278 | waiting for row and key locks keeps the uncommitted writes of two clients apart |
| Serializability.OthersStayOk | internal/store/balance.go:270-278 | uncommitted writes stay admissible when another client commits |
| Serializability.CommitKeepsOthers | internal/dbtx/db_tx_manager.go:26-31 | what a client has read and may still rely on survives the commits of others |
| Serializability.StepKeepsOk | internal/dbtx/db_tx_manager.go:20-32 | every statement, commit, abort, loss and arrival keeps the system invariant |
| Serializability.Serializable | internal/dbtx/db_tx_manager.go:20-32 | in every state of every interleaving the database is the serial run of the committed operations in commit order, and each of them commits there |
| Interleavings.ReadsComeFirst | internal/store/balance.go:188-223 | no operation reads a table it has written, so reads inside and outside the transaction agree |
| Interleavings.ConflictHasACause | internal/store/balance.go:293-295 | an update conflicts if and only if the operation wrote that balance itself or another operation committed a write of it since the read |
| Interleavings.LockErrorsAreUpdates | internal/store/balance.go:293-295 | the optimistic-lock error comes from a versioned update only |
| Interleavings.NoSpuriousConflict | internal/store/balance.go:293-295 | in every run an operation that returns the optimistic-lock error has such a cause |
| Interleavings.CommittedArrived | internal/dbtx/db_tx_manager.go:20-32 | only operations that were called are ever committed |
| Interleavings.EveryInterleavingIsConsistent | internal/wallets/service.go:42-52 | log, view, conservation, the correspondence of events and settlements, request discipline and revenue bound hold in every state of every interleaving |
| Interleavings.NoOverdraftInAnyInterleaving | internal/wallets/service.go:242-245 | no balance is negative in any interleaving, although sufficiency is checked outside the transaction |
| Interleavings.InflightExactInAnyInterleaving | internal/wallets/service.go:279-359 | in-flight columns are the unsettled reservations in every interleaving |
| Interleavings.RevenueBoundedInAnyInterleaving | internal/payments/service.go:250-255 | the revenue bound on the stored column holds in every interleaving |
| Interleavings.HistoryGrows | internal/dbtx/db_tx_manager.go:20-32 | a later state of a run has committed the same operations in the same order, and possibly more |
| Interleavings.GrowthBoundedInAnyInterleaving | internal/wallets/service.go:17-19 | between any two states of any interleaving the stored balances together grow by at most the cap per newly processed event |
| Interleavings.ConservesExactlyInAnyInterleaving | internal/store/balance.go:286-288 | balances and in-flight debits together are exactly the net inflow in every interleaving, under the counts of the serial statement |
| Interleavings.RoundTripInAnyInterleaving | internal/refunds/worker.go:118-165 | in every interleaving, right after the refund of a payment commits, every balance is where the commits in between alone would have taken it, but for the fee |
| Alone.TopupFails | internal/wallets/service.go:90-123 | a top-up that fails at a statement, undisturbed, fails the serial top-up with the same error |
| Alone.WithdrawFails | internal/wallets/service.go:231-271 | so does a withdrawal |
| Alone.WebhookFails | internal/wallets/service.go:131-197 | so does a delivery |
| Alone.TransferFails | internal/wallets/service.go:371-424 | so does a transfer |
| Alone.PayFails | internal/payments/service.go:90-181 | so does a payment, including two updates of one balance |
| Alone.RequestRefundFails | internal/payments/service.go:189-228 | so does a refund request |
| Alone.RefundFails | internal/refunds/worker.go:87-165 | so does a refund, including one between a balance and itself |
| Alone.MarkFailedFails | internal/store/refund_requests.go:92-110 | marking a missing request changes nothing and is no error |
| Alone.FailureIsSerial | internal/dbtx/db_tx_manager.go:20-32 | the same for every operation |
| SerialRuns.AloneIsSerial | internal/dbtx/db_tx_manager.go:20-32 | a client nobody disturbs runs, statement by statement, to the tables and the reply of its serial operation, whether it commits or fails |
| SerialRuns.SerialRunHappens | internal/dbtx/db_tx_manager.go:20-32 | the converse of serializability: every serial run whose claims take an oldest request and whose failed marks have a reason is a run of the concurrent system, with the same tables and replies |
| Amounts.GcdDivides | internal/wallets/service.go:490-493 | the factor taken out of a rational divides both parts |
| Amounts.GcdIsGreatest | internal/wallets/service.go:490-493 | every common divisor divides the factor taken out |
| Amounts.LowestTerms | internal/wallets/service.go:490-493 | a reduced rational has the same value, a positive denominator and no common factor |
| Amounts.Rat.SetString | internal/wallets/service.go:485-488 | accepts what the parser accepts and holds its value in lowest terms |
| Amounts.Rat.Mul | internal/wallets/service.go:490-491 | the receiver is overwritten with the product in lowest terms |
| Amounts.AmountInCentimes | internal/wallets/service.go:484-496 | refuses exactly the texts the parser refuses, else returns the numerator of 100 times the value read |
| Amounts.CentimesIsNumerator | internal/wallets/service.go:490-493 | for any rational the result is the lowest-terms numerator of 100 times it |
| Amounts.ExactIffWholeCentimes | internal/wallets/service.go:490-493 | the result is 100 times the value if and only if that is a whole number |
| Amounts.ScanDigits | internal/wallets/service.go:485 | reading digits from the left gives the number their positions denote |
| Amounts.DecimalValue | internal/wallets/service.go:485 | a signed decimal text denotes its digits divided by a power of ten |
| Amounts.AcceptedIff | internal/wallets/service.go:485 | the texts whose reading is prescribed to the parser are exactly an optional sign and digits with at most one point among them |
| Amounts.DecimalReadsDecimals | internal/wallets/service.go:485 | reading a signed decimal by its digits is what is asked of the parser, so the assumption can be met |
| Amounts.TwoDecimalsAreExact | internal/wallets/service.go:484-496 | a signed decimal with at most two decimals is accepted and gives exactly 100 times what its digits denote |
| Amounts.ThirdDecimalMisread | internal/wallets/service.go:484-496 | 0.001 is read as one centime |
| Amounts.ThirdMisread | internal/wallets/service.go:490-493 | a third, read from a text such as 1/3, becomes a hundred centimes |
| Idempotency.CaptureIsResponse | internal/middlewares/idempotency_middleware.go:39-54 | for every sequence of writes the captured status and body are those of the response |
| Idempotency.CaptureIsSent | internal/middlewares/idempotency_middleware.go:39-54 | the capture and what went out on the connection agree for every sequence of writes |
| Idempotency.ResponseWriter.WriteHeader | internal/middlewares/idempotency_middleware.go:39-46 | the first status counts, is captured and sent; later ones are dropped |
| Idempotency.ResponseWriter.Write | internal/middlewares/idempotency_middleware.go:48-54 | what is written is captured and sent, after a status of 200 if none was set |
| Idempotency.Middleware.Create | internal/store/idempotency_keys.go:34-48 | a record is inserted unless the key is taken, by any user, or the body is no JSON |
| Idempotency.Middleware.Wrap | internal/middlewares/idempotency_middleware.go:56-113 | one request is answered, and the table and the application change, as specified: refuse, replay, or run and store; the response is what the connection was sent |
| Idempotency.Middleware.ServeHTTP | internal/middlewares/idempotency_middleware.go:100-102 | the capture is in step with the connection after everything the handler wrote |
| Idempotency.RecordsStay | internal/store/idempotency_keys.go:34-48 | a stored record is never overwritten or removed by later requests |
| Idempotency.StoredResponseAnswers | internal/middlewares/idempotency_middleware.go:82-93 | once stored, a response answers every later request of that key and user, or 422 for another body, and the handler never runs |
| Idempotency.RetriesAreInvisible | internal/middlewares/idempotency_middleware.go:56-113 | dropping every retry from a stream of requests leaves application and table the same |
| Idempotency.ProtectedIff | internal/middlewares/idempotency_middleware.go:104-110 | a response protects against retries if and only if it is JSON and no user holds the key yet |
| Idempotency.AnswersIff | internal/middlewares/idempotency_middleware.go:57-93 | a missing key is answered 400, another body under the same key 422, the same body with the stored response, anything else by the handler, each if and only if |
| Idempotency.FirstAnswerIsSent | internal/middlewares/idempotency_middleware.go:95-102 | a first request is answered with the status and the body its handler sent, and 200 if it sent none |
| Idempotency.RetryRepeatsFirst | internal/middlewares/idempotency_middleware.go:82-110 | a retry of a protected request gets the status of the first answer and its body as the column reads it back, whatever was served in between |
| Idempotency.TakenKeyRunsAgain | internal/store/idempotency_keys.go:34-48 | with a key that another user holds, a request and its retry both run the handler |
| Idempotency.PlainTextRunsAgain | internal/store/idempotency_keys.go:34-48 | with a response that is no JSON, a request and its retry both run the handler |
| Limiter.CountedAndWaiting | internal/ratelimiter/fixed_window.go:22-48 | counted plus about to be counted calls of an address never exceed limit + k - 1 |
| Limiter.LimitHolds | internal/ratelimiter/fixed_window.go:22-48 | with at most k callers inside, and resets anywhere, no counter exceeds limit + k - 1 |
| Limiter.CounterCounts | internal/ratelimiter/fixed_window.go:33 | a counter is the number of calls admitted since the address's last reset |
| Limiter.LimitIsReached | internal/ratelimiter/fixed_window.go:22-48 | for every limit and k some interleaving reaches limit + k - 1 |
| Limiter.StepTimedIff | internal/ratelimiter/fixed_window.go:22-48 | an event leaves a counted address without a timer if and only if it counts a caller whose entry a timer has removed meanwhile |
| Limiter.RunTimedIff | internal/ratelimiter/fixed_window.go:22-48 | over a whole run every counted address has a timer if and only if no such increment happens |
| Limiter.StuckForGood | internal/ratelimiter/fixed_window.go:33-48 | an address that lost its timer is never forgotten and its counter never falls |
| Limiter.RefusedForGood | internal/ratelimiter/fixed_window.go:22-48 | for every limit from two on, with one caller at a time, some run ends with an address that is refused however the run goes on |
| Limiter.LimitOneKeepsTimers | internal/ratelimiter/fixed_window.go:27-31 | with a limit of one no timer is ever lost |
| Limiter.FixedWindowLimiter.Allow | internal/ratelimiter/fixed_window.go:22-40 | undisturbed, a call is admitted exactly when the address is new or below the limit, is counted once, and a new address gets its timer |
| Limiter.FixedWindowLimiter.ResetCount | internal/ratelimiter/fixed_window.go:42-48 | a timer forgets the address it was started for |

## Left out

- Amounts.AmountInCentimes: the grammar of big.Rat beyond signed decimals is not modelled; the parser is arbitrary there, so nothing is claimed about which such texts are read.
- Conservation.ReachableConserves: column totals are compared modulo 2^64, because in-flight debits of arbitrary runs can wrap; `Solvency.ConservesExactly` drops the modulus where they cannot.
- Solvency.NoOverdraft: assumes non-negative requested and session amounts, which the code does not enforce; `Overdraft` has the exact condition for all others.
- Revenue.RevenueOverRuns: compares @Revenue with the logged fees modulo 2^64, for arbitrary amounts; `Revenue.RevenueColumnIsBounded` is about the column itself.
- Inflight.InflightIsExact: assumes that the gateway reports each of its references under one event id.
- OneWorker.SingleWorkerStaysInStep: one worker means that it starts nothing while busy and marks a request failed directly after giving up on it, as `ProcessOne` does.
- Payments.Service.Pay: starts from the session that a token led to; token hashing, expiry and the session table are not modelled, and a session can be paid more than once.
- Worker.RefundWorker.ProcessAvailable: no other client writes during the drain; the timer around it is left out. Interleaved refunds are the subject of `OneWorker` and `Refunds`.
- Idempotency.Middleware.Wrap: requests come one after the other and the key table does not fail; concurrent duplicates of a first request are not claimed to be safe. Informational status codes, headers and the text of a refusal are left out.
- Limiter.LimitHolds: windows have no length; when a timer fires is arbitrary.
- Gateway calls that fail before any table is touched, and session or payout data returned to the caller.
- Registration, activation, merchants, CreateBalance and the user tables behind the joins: inserts and deletes that move no money.
- GetWallet, GetTransactionHistory and toFloat: display only.
- HTTP handlers, JSON, routing, authentication, HMAC, mail, configuration, logging, health checks and shutdown.
- The 32-bit width of the version column, foreign keys, column descriptions of refund requests, the precision of timestamps.
- Statement timeouts, deadlock detection and connection failures appear as transactions that abort at an arbitrary point; a commit whose outcome the client does not learn is not distinguished from one it does.
- Eventual processing of refund requests, limits per day and single use of checkout sessions: the code does not establish them.
