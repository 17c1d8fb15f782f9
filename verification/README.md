# A verified model of the payment quality lab

The payment service keeps one database that competing transactions change: payment requests with idempotency keys,
confirmations of delayed payments, expiry sweeps, recoveries, and leased webhook deliveries. This project models that
database, proves what every run of those transactions keeps, and proves that the readers (reconciliation,
confirmation report, performance verifier) say what is really stored.

## How the model is built

* **Values.** `Domain` is the pure payment lifecycle, `Tables` the rows and their check constraints. A row is a
  datatype value; a table is a map or a sequence.
* **Transactions.** `Payments` and `Confirmations` say what each transaction commits as a function of the committed
  tables. `Runs` makes each transaction one step. The writer lock of the database serialises transactions and a commit
  is all or nothing; a crash is a step that does not come, so every prefix of a run is a run. Capture and refund carry
  the row their session holds, which may be *any* version committed so far, and the version check at the flush decides.
* **Services.** `Sessions`, `PaymentService`, `ConfirmationService` and `ReportService` are the imperative form: a
  `Database` object, `Session` objects with a working copy and a cache of rows, and methods that claim, assign fields,
  flush, roll back and commit. Each method is proved equal to the step it implements, so whatever holds of runs holds of
  interleaved service calls. `Consumer.MerchantStore` and `Delivery.WebhookEvent` do the same for the merchant's store and
  the outbox row, `Reconciliation`, `ReportService` and `Verifier` for the loops of the readers.
* **Theorems.** `Invariants`, `CoreRuns` and `Evidence` hold the invariants of every run; the other files hold one result
  each, named by their headings.

| file | result |
|---|---|
| `CoreRuns`, `Evidence` | ledger conservation, outbox completeness, confirmation evidence, linearisation of stale writers |
| `Protection`, `Draining` | protection of an on-time receipt over whole runs; order of resolving receipts does not matter |
| `Dispositions` | which record each receipt gets, what its sender is told, and what a late record does and does not say of its payment |
| `Answers` | when each payment request succeeds, with which row, entry and event, and which rule refuses it otherwise |
| `Sweeps`, `Recoveries` | bounded sweeps, and bounded recoveries, add up to one unbounded pass |
| `Retries`, `Clocks`, `EventTimes` | retries leave no trace; every cutoff of the ledger is sane; versions are in time order |
| `Consumer`, `Delivery`, `Exchange` | projections converge, gap flags are exact; leased delivery is safe with stale workers; delivered means consumed |
| `Reconciliation`, `Agreement`, `Settlement` | the report is matched exactly when everything agrees, from any run of the whole system; what its classifications and counts stand for |
| `ConfirmationReport`, `Sections`, `FrozenCutoff` | what the counts stand for; counts are conserved; the section of a cutoff stays the same exactly as long as no step reaches back through it |
| `Verifier`, `QueryOrder`, `ProfileRuns` | aggregate counts force per-payment facts, in both directions; runs of a workload pass, whatever the order of the queries |
| `Money` | amount text is read exactly, and printing and reading undo each other |

Assumptions: identifiers are numbers with the equality and order of the originals; a request stands for its own
fingerprint (two requests have the same digest only if they are equal); instants are integers in microseconds; clocks,
fresh identifiers and injected failures are parameters. A consumed event is one atomic step, since the projection row
has no version check of its own.

`Clocks` asks of a run only what a clock that never goes back gives: a capture, refund or cancellation reads its clock
inside its write transaction, so its reading is no earlier than the instants committed before it. An authorization reads
its clock before it takes the lock and may commit dated earlier than what was committed meanwhile, and a sweep is handed
its instant; nothing is asked of either. Without any clock, `Clocks.OrderedLedgerIsSane` covers every payment whose own
entries are in time order. `EventTimes`, and the equality of on-time confirmations with applied records that rests on it,
ask the same of acceptances, which also read their clock under the lock, and that no receipt names a payment reference
before the payment is given it.

## Where the code and a natural reading of it differ

* A `late` record does not imply that the payment expired. `Dispositions.LateIsNotExpired` is a run that ends with a late
  record beside a waiting payment; `Dispositions.LateExpiresUnlessProtected` has the condition: a late receipt of a waiting
  payment expires it if and only if no pending receipt protects it.
* A `late` record does not imply that the receipt came after the deadline. `Dispositions.LateIsNotAfterDeadline` is such a
  run; `Dispositions.OnTimeIsLateOnlyAfterExpiry` has the condition: a receipt that came before the deadline is recorded as
  late if and only if the payment had expired before it was resolved. `Dispositions.LateExactly` joins both.
* `CANCEL` ledger rows change no total, and a cancelled authorization keeps its authorized amount
  (`CoreRuns.CancelledKeepsAuthorization`).
* The verifier compares the ledger operations with `{"AUTHORIZATION": approved}`, which would fail on a workload without
  an approved payment. None of the five profiles is such a workload (`Verifier.ProfileVerdict`). Event types are compared
  in total only (`Verifier.TypesAreOnlyCounted`).

## Model

| member | source | states |
|---|---|---|
| Domain.PaidRunsOnlyRefund | src/payment_quality_lab/domain/payment.py:226-249 | after any successful series of operations on a paid payment only refunds happened, the refunded balance grew by their sum and never passes the captured amount |
| Domain.RefundsAddUp | src/payment_quality_lab/domain/payment.py:226-249 | a series of refunds succeeds exactly when every part is positive and their sum is no more than what is captured and not refunded, and ends with that sum refunded |
| Domain.BuildExactly | src/payment_quality_lab/domain/payment.py:129-142 | a state is constructed exactly when 0 <= refunded <= captured <= authorized |
| Domain.RefundExactly | src/payment_quality_lab/domain/payment.py:226-249 | a refund succeeds exactly for a captured or partly refunded payment and a positive amount up to what is left; the new status, and which rule refuses it otherwise |
| Domain.CaptureExactly | src/payment_quality_lab/domain/payment.py:169-179 | a capture succeeds exactly for an authorized payment, for all that was authorized |
| Domain.CancelExactly | src/payment_quality_lab/domain/payment.py:213-223 | exactly authorized and waiting payments can be cancelled |
| Domain.ConfirmExactly | src/payment_quality_lab/domain/payment.py:182-197 | a confirmation captures exactly a waiting payment, for its positive amount |
| Domain.ExpireExactly | src/payment_quality_lab/domain/payment.py:200-210 | exactly a waiting payment expires, with its balances as they are |
| Domain.AuthorizeExactly | src/payment_quality_lab/domain/payment.py:150-166 | only the approving token authorizes, the whole amount; each other token declines with its own reason |
| Ledger.CalculateLedgerTotals | src/payment_quality_lab/services/reconciliation.py:164-190 | the loop returns, for each balance, the sum of the entries whose operations contribute to it, up to the cutoff |
| Ledger.CutIsPrefix | src/payment_quality_lab/services/reconciliation.py:164-190 | entries written in time order are cut by any cutoff into a prefix and the rest |
| CoreRuns.RunsKeepCore | src/payment_quality_lab/services/payments.py:495-556 | every step of every interleaving keeps rows, events and ledger of each payment in agreement |
| CoreRuns.LedgerIsConserved | src/payment_quality_lab/services/reconciliation.py:164-190 | from an empty store the balances of every payment are the totals of its own entries, and the status fixes their shape |
| CoreRuns.OutboxIsComplete | src/payment_quality_lab/services/webhooks.py:212-245 | exactly one event for each version 1..version, each one legal transition after the one before, the newest equal to the row |
| CoreRuns.CancelledKeepsAuthorization | src/payment_quality_lab/domain/payment.py:213-223 | in every run a cancelled payment keeps its authorization in row and ledger, and has no other balance |
| CoreRuns.SameVersionSameRow | src/payment_quality_lab/persistence/models.py:85-87 | a cached row whose version is still the stored one is the stored row |
| CoreRuns.CompletionSucceeds | src/payment_quality_lab/services/confirmations.py:373-441 | resolving an unresolved receipt never raises once the stored rows agree |
| CoreRuns.ExpireAllEffect | src/payment_quality_lab/services/confirmations.py:503-511 | the sweep's loop expires exactly the listed payments and touches nothing else |
| Evidence.ChangeCommit | src/payment_quality_lab/services/payments.py:495-556 | a capture or refund decided on any cached version commits only as one legal transition of the row committed last |
| Evidence.RequestCommit | src/payment_quality_lab/services/payments.py:309-335 | what a request that changes anything commits: row, ledger entry, event, and completed key together |
| Answers.CaptureAnswers | src/payment_quality_lab/services/payments.py:495-556 | a capture under a new key decided on the stored row: not found, not allowed, or success with the row, the entry and the event spelled out |
| Answers.RefundAnswers | src/payment_quality_lab/services/payments.py:495-556 | a refund likewise: it succeeds exactly for a positive amount up to what is left, and otherwise names the rule it breaks |
| Answers.CancelAnswers | src/payment_quality_lab/services/payments.py:510-543 | a cancellation likewise: it succeeds exactly for an authorized payment, with an entry, or a waiting one that no pending matching receipt stands to pay, without one |
| Answers.ApprovalAnswers | src/payment_quality_lab/services/payments.py:374-450 | an approved payment: its row, entry and event, or the rule that refuses it |
| Answers.DeclineAnswers | src/payment_quality_lab/services/payments.py:374-450 | a declined payment: its row with the reason of its token, no entry, and its event |
| Answers.DelayedAnswers | src/payment_quality_lab/services/payments.py:384-394 | a delayed payment: it waits 72 hours under a new reference, with nothing authorized and no entry |
| Answers.FailuresOnlyHide | src/payment_quality_lab/services/payments.py:318-335 | an injected failure before the commit leaves nothing, one after it only hides the answer |
| Answers.StaleIsRefused | src/payment_quality_lab/services/payments.py:327-329 | a writer with an older version is told the rule that version breaks, or that it lost the race |
| Evidence.CompletionCommit | src/payment_quality_lab/services/confirmations.py:257-323 | what resolving a receipt writes for each disposition, and that only an unprotected waiting payment expires |
| Evidence.SweepCommit | src/payment_quality_lab/services/confirmations.py:476-521 | a sweep changes only due, unprotected payments, and only by expiring them |
| Evidence.RunsKeepInv | src/payment_quality_lab/services/confirmations.py:373-441 | records, receipts and dispositions stay true of the payments in every run, crashes anywhere |
| Evidence.StepKeepsReceipts | src/payment_quality_lab/services/confirmations.py:93-112 | one step never changes receipt input, undoes a completion or changes a final record |
| Evidence.ReceiptsAreImmutable | src/payment_quality_lab/services/confirmations.py:93-112 | from any state of a run to any later one, receipt input is unchanged, completion is never undone, a final record stays the same |
| Evidence.EvidenceMatchesMoney | src/payment_quality_lab/services/confirmations.py:410-422 | a final record exists exactly for completed receipts; applied records equal confirmed ledger effects, one exactly when a delayed payment is paid |
| Protection.ProtectionHolds | src/payment_quality_lab/services/coordination.py:23-46 | once an on-time matching receipt is stored, no run expires or cancels the payment |
| Protection.AcceptedOnTimeIsPaid | src/payment_quality_lab/services/confirmations.py:80-115 | from the commit of the acceptance, any run followed by resolving that receipt leaves the payment paid |
| Draining.DrainFollowsVerdict | src/payment_quality_lab/services/confirmations.py:257-323 | resolving any sequence of receipts ends as a verdict that mentions no order |
| Draining.OrderDoesNotMatter | src/payment_quality_lab/services/confirmations.py:257-323 | status, balances, version, applied records and ledger effects are the same in every order of the same receipts |
| Draining.FullDrain | src/payment_quality_lab/services/confirmations.py:444-473 | draining all receipts captures exactly once if one matched on time, else expires if one was late, else leaves the payment waiting |
| Dispositions.LateExactly | src/payment_quality_lab/services/confirmations.py:257-277 | a receipt is recorded as late if and only if the payment has expired, or waits and the receipt came at or after the deadline |
| Dispositions.DispositionExactly | src/payment_quality_lab/services/confirmations.py:257-277 | which of the six dispositions an unresolved receipt of a payment gets, each if and only if |
| Dispositions.UnknownExactly | src/payment_quality_lab/services/confirmations.py:263-264 | a receipt whose reference no payment has is recorded as such and changes no payment |
| Dispositions.AnswerIsTheRecord | src/payment_quality_lab/services/confirmations.py:385-441 | the caller is told the record that is stored, as a replay exactly when it was stored before |
| Dispositions.AcceptExactly | src/payment_quality_lab/services/confirmations.py:91-112 | when a receipt is stored, acknowledged again, or refused for other content |
| Dispositions.LateExpiresUnlessProtected | src/payment_quality_lab/services/confirmations.py:313-323 | a late receipt of a waiting payment expires it if and only if no pending receipt protects it, and otherwise leaves it alone |
| Dispositions.OnTimeIsLateOnlyAfterExpiry | src/payment_quality_lab/services/confirmations.py:266-272 | a receipt from before the deadline is recorded as late if and only if the payment had expired |
| Dispositions.LateIsNotExpired | src/payment_quality_lab/services/confirmations.py:313-318 | a run that ends with a late record beside a waiting payment |
| Dispositions.LateIsNotAfterDeadline | src/payment_quality_lab/services/confirmations.py:266-267 | a run that ends with a late record of a receipt from before the deadline |
| Sweeps.SweepsAddUp | src/payment_quality_lab/services/confirmations.py:476-521 | bounded sweeps concatenate to the front of the full due list, and the rest stays due |
| Sweeps.RepeatedSweepsFinish | src/payment_quality_lab/services/confirmations.py:476-521 | enough bounded sweeps end in the store of one unbounded sweep, with the whole list in deadline order |
| Sweeps.SweepAnswers | src/payment_quality_lab/services/confirmations.py:483-485 | a sweep succeeds exactly for a limit of 1 to 1000 |
| Sweeps.FirstDeadlinesFirst | src/payment_quality_lab/services/confirmations.py:489-500 | a sweep answers with up to its limit of the overdue unprotected payments, those with the first deadlines, in that order |
| Recoveries.RecoveriesAddUp | src/payment_quality_lab/services/confirmations.py:444-473 | bounded recoveries concatenate to the front of the pending list, oldest first, and equal one pass over what they completed |
| Recoveries.OldestFirst | src/payment_quality_lab/services/confirmations.py:456-466 | a recovery takes up to its limit of the unresolved receipts, those that came first, in that order |
| Recoveries.RepeatedRecoveriesFinish | src/payment_quality_lab/services/confirmations.py:444-473 | enough bounded recoveries leave nothing pending, in the store of one pass over the whole pending list |
| Recoveries.RecoveryDecides | src/payment_quality_lab/services/confirmations.py:444-473 | after them every payment that waited is paid exactly if a receipt matched on time, expired exactly if none did and one was late, with one ledger effect or none |
| Retries.UncommittedLeavesNoTrace | src/payment_quality_lab/services/payments.py:338-371 | a request changes the store exactly when it commits its key, and then adds that record only |
| Retries.RetriesErase | src/payment_quality_lab/services/payments.py:268-306 | any log ends in the store of its committed requests alone |
| Retries.KeysCommitOnce | src/payment_quality_lab/services/payments.py:268-306 | each key commits at most once in any log |
| Retries.RecordsPersist | src/payment_quality_lab/services/payments.py:251-265 | fingerprint and snapshot of a key never change |
| Retries.RunsKeepComplete | src/payment_quality_lab/services/payments.py:263-264 | the error for a half-written claim is never raised in any reachable state |
| Retries.CommittedAnswerIsFinal | src/payment_quality_lab/services/payments.py:324-335 | after a commit, even one whose answer was lost, every later equal request gets that payment and every different one is refused, with the store unchanged |
| Clocks.RunsKeepClock | src/payment_quality_lab/services/payments.py:524-544 | if captures, refunds and cancellations are dated no earlier than what was committed before them, every payment's entries stay in time order, although authorizations may be dated back and confirmations date theirs back to the receipt |
| Clocks.OrderedLedgerIsSane | src/payment_quality_lab/services/reconciliation.py:164-190 | whatever the clocks did, a payment whose own entries are in time order has sane totals at every cutoff |
| Clocks.EveryCutoffIsSane | src/payment_quality_lab/services/reconciliation.py:366-368 | in every such run 0 <= refunded <= captured <= authorized at every cutoff |
| EventTimes.RunsKeepTimes | src/payment_quality_lab/services/confirmations.py:90-112 | with acceptances dated under the lock as well and fresh references, the versions of each payment stay in time order and applied records are dated as the captured version |
| Consumer.DeliveryConverges | src/payment_quality_lab/services/webhooks.py:497-598 | a producer event never raises, and keeps each projection at the newest delivered version |
| Consumer.DeliveriesConverge | src/payment_quality_lab/services/webhooks.py:497-598 | for any sequence with repeats and reordering: one inbox row per event, each projection the newest delivered snapshot |
| Consumer.SameProjections | src/payment_quality_lab/services/webhooks.py:497-598 | two delivery sequences of the same events leave the same projections |
| Consumer.GapFlagsAreExact | src/payment_quality_lab/services/webhooks.py:526-570 | no applied row is flagged as a gap exactly when the applied versions are 1..max |
| Consumer.ProducerEventsParse | src/payment_quality_lab/services/webhooks.py:353-447 | every event the producer writes passes the consumer's checks |
| Consumer.ParsedExactly | src/payment_quality_lab/services/webhooks.py:353-447 | a body is accepted exactly when its payment fits the stored form and its type and version fit the payment |
| Consumer.ProjectionCarries | src/payment_quality_lab/services/webhooks.py:475-494 | the projection carries every field of the payment and the event it came from |
| Consumer.ConsumedExactly | src/payment_quality_lab/services/webhooks.py:515-558 | when a delivery is invalid, a duplicate, a collision, applied with or without a gap, stale, redundant or a conflict, each if and only if |
| Consumer.StoredExactly | src/payment_quality_lab/services/webhooks.py:526-598 | what each of these stores, and that a failure after the inbox stores nothing |
| Consumer.MerchantStore.ApplyProjection | src/payment_quality_lab/services/webhooks.py:475-494 | the field assignments turn the stored projection into that of the event |
| Consumer.MerchantStore.ConsumeWebhook | src/payment_quality_lab/services/webhooks.py:497-598 | inbox, projections and answer after one delivery, for every branch and the injected failure |
| Delivery.WebhookEvent.ClaimDelivery | src/payment_quality_lab/services/webhooks.py:601-640 | a claim succeeds exactly when the event is ready or its lease has run out, and then takes the lease |
| Delivery.WebhookEvent.FinalizeDelivery | src/payment_quality_lab/services/webhooks.py:643-699 | the row written from the worker's copy together with its attempt, or neither; delivered exactly for a status of 200 to 299, else retried after 1 or 5 seconds, else exhausted after the third attempt |
| Delivery.FinalizedExactly | src/payment_quality_lab/services/webhooks.py:660-681 | the status, times and lease of the row after an attempt, by the status the receiver answered |
| Delivery.ClaimExactly | src/payment_quality_lab/services/webhooks.py:613-636 | a new worker gets the event exactly when its next attempt is due or its holder has held it for 30 seconds |
| Delivery.DeliveryIsSafe | src/payment_quality_lab/services/webhooks.py:601-751 | every interleaving of workers that finalise from the row they loaded keeps the lease invariant |
| Delivery.EveryRunIsSafe | src/payment_quality_lab/services/webhooks.py:601-751 | attempts are exactly 1..attempt_count, at most three, spaced by the schedule, only the last a success |
| Delivery.StatusTellsOutcomes | src/payment_quality_lab/services/webhooks.py:601-751 | in every interleaving: delivered exactly when an attempt was a success, exhausted exactly after three that were not, and the attempts 1 and 5 seconds apart |
| Delivery.EndIsFinal | src/payment_quality_lab/services/webhooks.py:601-751 | a delivered or exhausted event is never touched again |
| Delivery.OneWinner | src/payment_quality_lab/persistence/models.py:167-174 | of two workers holding the same attempt count at most one records its attempt |
| Reconciliation.GroupByPayment | src/payment_quality_lab/services/reconciliation.py:351-354 | each group is the payment's rows in their order |
| Reconciliation.TotalsByCurrency | src/payment_quality_lab/services/reconciliation.py:394-399 | a currency is listed exactly when an item mentions it, with the sums of expected and observed amounts in it |
| Reconciliation.Summarise | src/payment_quality_lab/services/reconciliation.py:426-462 | the verdict and the counts are those of the listed items |
| Reconciliation.CompareSources | src/payment_quality_lab/services/reconciliation.py:359-424 | the evidence for one payment from payment, ledger, settlement rows and projection |
| Reconciliation.CompareAll | src/payment_quality_lab/services/reconciliation.py:358-424 | one item for each covered payment in order, or the first payment without an event |
| Reconciliation.ReconcileSettlementBatch | src/payment_quality_lab/services/reconciliation.py:333-468 | an unknown batch is refused; otherwise one item for each covered payment in identifier order and a summary of exactly those, unless a covered payment has no event |
| Settlement.ClassifiedExactly | src/payment_quality_lab/services/reconciliation.py:193-223 | duplicated, missing, mismatched and matched, each if and only if, by the payment's own rows |
| Settlement.CanonicalIsFirstLine | src/payment_quality_lab/services/reconciliation.py:199-204 | the canonical amount and the observed currency are those of the row with the smallest line number |
| Settlement.SettlementCounts | src/payment_quality_lab/services/reconciliation.py:426-462 | the missing, duplicated and mismatched counts of a report are the numbers of covered payments with no row but something expected, with two rows or more, and with one wrong row |
| Settlement.LedgerCounts | src/payment_quality_lab/services/reconciliation.py:296-303 | the ledger mismatches of a report are the covered payments whose balances are not the sums of their entries |
| Settlement.ProjectionExactly | src/payment_quality_lab/services/reconciliation.py:306-330 | missing, stale, mismatched and matched projections, each if and only if |
| Settlement.ProjectionCounts | src/payment_quality_lab/services/reconciliation.py:429-431 | the projection mismatches of a report are the covered payments that the merchant does not show as they are stored |
| Settlement.DiscrepancyIsSurplus | src/payment_quality_lab/services/reconciliation.py:445-453 | the discrepancy of a currency is what was settled in it above what was expected, payment by payment |
| Settlement.ItemSays | src/payment_quality_lab/services/reconciliation.py:358-424 | what each line of a report says of its payment, in every store whose rows agree |
| Agreement.MatchedExactly | src/payment_quality_lab/services/reconciliation.py:333-468 | matched exactly when each covered payment is settled exactly and its current version has been delivered; the ledger never disagrees |
| Agreement.MatchedHasNoDiscrepancy | src/payment_quality_lab/services/reconciliation.py:438-462 | a matched report has zero discrepancy in every currency, from any state at all |
| Agreement.WorldsConverge | src/payment_quality_lab/services/webhooks.py:497-598 | transactions and deliveries interleaved in any way keep producer and consumer in agreement |
| Agreement.EndToEndAgreement | src/payment_quality_lab/services/reconciliation.py:333-468 | from an empty store and after any interleaving, matched if and only if settlement and delivery are complete, and then no discrepancy |
| Agreement.ReportNeverFails | src/payment_quality_lab/services/reconciliation.py:375-382 | a covered payment always has an event, so the report is always produced |
| Agreement.ExpectedIsNet | src/payment_quality_lab/services/reconciliation.py:366-368 | clamping the expected amount at zero changes nothing for a payment whose entries are in time order |
| Agreement.ExpectedIsNetOnClock | src/payment_quality_lab/services/reconciliation.py:366-368 | in every run whose captures, refunds and cancellations are dated in commit order it changes nothing for any payment |
| Exchange.DispatchWebhook | src/payment_quality_lab/services/webhooks.py:702-751 | outbox row, attempts, merchant data and answer of one dispatch, for both injected faults and every behaviour of the receiver; delivered exactly when there was no fault and a status of 200 to 299 |
| Exchange.Send | src/payment_quality_lab/services/webhooks.py:722-740 | what the merchant has and what is recorded after the event was sent, for every way the receiver can behave |
| Exchange.AnswerIsTruthful | src/payment_quality_lab/services/webhooks.py:722-740 | a success is recorded exactly for a status of 200 to 299, and which outcome is recorded otherwise |
| Exchange.ActsKeep | src/payment_quality_lab/services/webhooks.py:601-751 | every interleaving of payments, dispatches, answers and other deliveries keeps producer, workers and consumer in agreement |
| Exchange.DeliveredMeansConsumed | src/payment_quality_lab/api/routes.py:436-462 | a DELIVERED row means that the inbox holds that event and the projection is at its version or later |
| Exchange.DeliveredAndSettledIsMatched | src/payment_quality_lab/services/reconciliation.py:333-468 | if the newest event of every covered payment is DELIVERED and every payment is settled exactly, the report is matched without discrepancy |
| ConfirmationReport.ReportConserves | src/payment_quality_lab/services/confirmation_reporting.py:47-139 | dispositions plus pending receipts are the receipts by the cutoff; the four outcomes add up to the eligible payments |
| ConfirmationReport.OutcomesExclude | src/payment_quality_lab/services/confirmation_reporting.py:74-87 | captured, cancelled and expired never occur together in one history, so the order of the branches hides nothing |
| Sections.OutcomeExactly | src/payment_quality_lab/services/confirmation_reporting.py:74-87 | which outcome a delayed payment has: confirmed, cancelled, expired or pending by the events it has through the cutoff, each if and only if |
| Sections.OutcomeCountsMean | src/payment_quality_lab/services/confirmation_reporting.py:47-88 | the four outcome counts are the numbers of delayed payments with a paid, a cancelled, an expired, and none of these events by the cutoff |
| Sections.OutcomeOfTheRow | src/payment_quality_lab/services/confirmation_reporting.py:74-87 | through a cutoff no earlier than its last change a delayed payment has the outcome of its own status |
| Sections.RecordCountsMean | src/payment_quality_lab/services/confirmation_reporting.py:101-109 | each disposition counts the records that have it |
| Sections.PendingCountMeans | src/payment_quality_lab/services/confirmation_reporting.py:113-122 | the pending count is the number of receipts received by the cutoff and not resolved |
| Sections.AnomaliesMean | src/payment_quality_lab/services/confirmation_reporting.py:102-112 | a line for each currency and disposition that occurs, with the number of its records and their amounts |
| ConfirmationReport.ConfirmedEqualsApplied | src/payment_quality_lab/services/confirmation_reporting.py:47-112 | payments confirmed on time are as many as applied records, in every state whose receipts and versions are dated in order |
| ConfirmationReport.ConfirmedEqualsAppliedInRuns | src/payment_quality_lab/services/confirmation_reporting.py:47-112 | the same for every run from an empty store whose locked clock readings do not go back and whose references are fresh |
| FrozenCutoff.EvidenceIsFrozen | src/payment_quality_lab/services/confirmation_reporting.py:47-122 | past the cutoff and with nothing pending through it, outcomes, records and pending receipts for it stay the same in every later run |
| FrozenCutoff.CutoffIsFrozen | src/payment_quality_lab/services/confirmation_reporting.py:33-151 | past the cutoff and with nothing pending through it, every later run leaves the fresh section unchanged |
| FrozenCutoff.FrozenExactlyWhenNothingPending | src/payment_quality_lab/services/confirmation_reporting.py:113-122 | against every run whose steps are dated after the cutoff, the section is fixed if and only if no receipt is pending through it |
| FrozenCutoff.SectionStaysExactlyWhenUntouched | src/payment_quality_lab/services/confirmation_reporting.py:33-151 | over every honest run, whatever its clocks did, the fresh section is the same at the end if and only if no step created a delayed payment by the cutoff, received or resolved a receipt of it, or changed or expired by it a payment still open through it |
| FrozenCutoff.EarlyAuthorizationIsCounted | src/payment_quality_lab/services/payments.py:347-367 | a run with nothing pending whose authorization, dated by the cutoff, changes the section |
| Verifier.CurrencySummary | src/payment_quality_lab/performance/verifier.py:68-89 | one line for each currency that occurs, holding the counts and sums of that currency |
| Verifier.ExpectedCurrencySummary | src/payment_quality_lab/performance/verifier.py:92-110 | the same for the expected payments, with ledger effects for approved ones only |
| Verifier.VerifyDatabase | src/payment_quality_lab/performance/verifier.py:113-297 | passes exactly when all the listed checks hold |
| Verifier.PassesExactly | src/payment_quality_lab/performance/verifier.py:166-297 | passing is equivalent to: one matching entry per authorized payment and none per declined one, one version-one event per payment, records, keys and payments one to one, references one to one, and the compared totals |
| Verifier.PassingMeans | src/payment_quality_lab/performance/verifier.py:166-297 | what passing says of each payment, entry, record and event, spelled out |
| Verifier.EachOnce | src/payment_quality_lab/performance/verifier.py:248-270 | the pigeonhole step: equal value sets and equal counts make every value occur exactly once |
| Verifier.LedgerForces | src/payment_quality_lab/performance/verifier.py:223-240 | the ledger checks force exactly one entry for each authorized payment and none for declined ones |
| Verifier.TypesAreOnlyCounted | src/payment_quality_lab/performance/verifier.py:277-286 | event types handed out to other payments get the same verdict |
| Verifier.ProfilesAreNamed | src/payment_quality_lab/performance/profiles.py:31-59 | every profile gives its payments distinct references and keys and approves at least one |
| Verifier.ProfileSizes | src/payment_quality_lab/performance/profiles.py:5-49 | how many payments each profile has, which are approved, and what they cost |
| Verifier.ProfileVerdict | src/payment_quality_lab/performance/profiles.py:31-49 | for each of the five profiles the verdict is exactly the per-payment facts and the compared totals |
| QueryOrder.VerdictInAnyOrder | src/payment_quality_lab/performance/verifier.py:124-160 | the verdict is the same in whatever order the queries return the rows |
| ProfileRuns.WorkloadPasses | src/payment_quality_lab/performance/verifier.py:113-297 | any run from an empty store whose committed requests are the authorizations of a workload, in any order and with retries, replays, refusals and timeouts, leaves rows that pass |
| ProfileRuns.ProfileRunPasses | src/payment_quality_lab/performance/profiles.py:31-49 | the same for each of the five profiles |
| Money.ParseIsExact | src/payment_quality_lab/web/checkout/money.js:7-40 | a text that denotes an amount is read as exactly that amount in minor units, or refused because it is out of bounds |
| Money.AcceptsExactly | src/payment_quality_lab/web/checkout/money.js:7-40 | a text of any length is accepted if and only if it denotes an amount within bounds |
| Money.RoundTrip | src/payment_quality_lab/web/checkout/checkout.js:544-548 | reading a printed amount gives it back, for 1 to 999,999,999 in both currencies |
| Money.PrintedApart | src/payment_quality_lab/web/checkout/checkout.js:544-548 | different amounts print differently |
| Money.PrintedForm | src/payment_quality_lab/web/checkout/checkout.js:544-548 | amounts are printed without leading zeros, dollars with exactly two digits of cents |
| Sessions.Session.GetPayment | src/payment_quality_lab/services/payments.py:622-627 | a lookup returns the cached row if there is one, and caches what it loads |
| Sessions.Session.Flush | src/payment_quality_lab/persistence/models.py:85-87 | a row is written only if the stored version is the one it was read at and the check constraints hold, and its version goes up |
| Sessions.Session.BeginCoordinatedWrite | src/payment_quality_lab/services/coordination.py:12-20 | nothing of an earlier transaction and no cached row is left |
| Sessions.Session.CreateOutboxEvent | src/payment_quality_lab/services/webhooks.py:212-245 | one event with the full row is appended for the version just reached |
| PaymentService.ClaimIdempotencyKey | src/payment_quality_lab/services/payments.py:251-306 | the key is claimed, or the earlier result or the conflict is returned with nothing changed, also when an equal key is committed after the first lookup and the insertion fails |
| PaymentService.CommitPaymentOutcome | src/payment_quality_lab/services/payments.py:309-335 | everything is committed together, or nothing when the failure comes before the commit |
| PaymentService.AuthorizePayment | src/payment_quality_lab/services/payments.py:338-450 | the committed tables and the answer of an authorization; the session stays valid |
| PaymentService.StageLifecycleOperation | src/payment_quality_lab/services/payments.py:504-544 | the row and entry staged from the row the session sees, or the first rule broken |
| PaymentService.ApplyLifecycleOperation | src/payment_quality_lab/services/payments.py:463-492 | the committed tables and the answer of a lifecycle request |
| PaymentService.CapturePayment | src/payment_quality_lab/services/payments.py:559-575 | a capture is an honest capture step decided on the session's view |
| PaymentService.RefundPayment | src/payment_quality_lab/services/payments.py:601-619 | a refund is an honest refund step decided on the session's view |
| PaymentService.CancelPayment | src/payment_quality_lab/services/payments.py:578-598 | a cancellation decides on the stored row, and never loses a race or breaks a constraint |
| PaymentService.ChangesFit | src/payment_quality_lab/persistence/models.py:25-59 | what is decided on a committed row never breaks a check constraint |
| ConfirmationService.AcceptConfirmation | src/payment_quality_lab/services/confirmations.py:80-115 | the receipt is stored once; reuse with other content is refused |
| ConfirmationService.ApplyExpiryTransition | src/payment_quality_lab/services/confirmations.py:236-254 | row and event of the expiry, or the rule it breaks with nothing staged |
| ConfirmationService.ApplyDisposition | src/payment_quality_lab/services/confirmations.py:280-323 | what each disposition stages for the payment |
| ConfirmationService.CompleteConfirmation | src/payment_quality_lab/services/confirmations.py:361-441 | the committed tables and the answer of resolving or replaying a receipt; the answer is the stored record, a replay exactly if it was stored before |
| ConfirmationService.ProcessConfirmation | src/payment_quality_lab/services/confirmations.py:326-358 | acceptance commits first, then completion; the answer is the stored record; whatever fails after acceptance leaves the receipt stored |
| ConfirmationService.RecoverPendingConfirmations | src/payment_quality_lab/services/confirmations.py:444-473 | the oldest pending receipts up to the limit are all completed, in order |
| ConfirmationService.ExpireDuePayments | src/payment_quality_lab/services/confirmations.py:476-521 | the first due, unprotected payments up to the limit expire in one commit |
| ReportService.CountOutcomes | src/payment_quality_lab/services/confirmation_reporting.py:47-88 | each counter ends at the number of eligible payments with that outcome, which Sections.OutcomeCountsMean ties to the stored events |
| ReportService.TallyRecords | src/payment_quality_lab/services/confirmation_reporting.py:89-112 | counters and anomaly buckets end at the counts and sums of the records in them |
| ReportService.ConfirmationSection | src/payment_quality_lab/services/confirmation_reporting.py:26-154 | a saved section is returned unchanged; otherwise the fresh one is computed and saved; other batches stay as they are |

## Left out

- HTTP routes, request schemas, exception texts, response headers: plumbing around the modelled services.
- SQLAlchemy and SQLite internals (autoflush, weak identity map, lock timeouts, database errors other than the modelled constraints): assumed, not proved.
- JSON encoding, digests, signatures, UUIDs and time zones: abstract values, injective fingerprints, fresh identifiers and integer instants stand for them; a wrongly encoded payload is not modelled.
- The order of ledger rows within a report: the totals are sums and do not depend on it.
- Identifiers of ledger entries and attempts, the instant an inbox row was processed, replay response text: no modelled operation reads them.
- create_settlement_batch: the import checks on settlement files are not modelled; rows are arbitrary apart from their positive amounts.
- ReportService.TallyRecords: anomalies are kept as a map by currency and disposition; the sorted list of the saved payload is not modelled.
- ReportService.ConfirmationSection: the refusal of a clock without a time zone and the sorted anomaly list are not modelled, because instants carry no zone and the list is an encoding of the map.
- Sessions.Session.GetPayment: a row object shared between callers of one session is not modelled; the cache holds values.
- Sessions.Session.BeginCoordinatedWrite: the refusal of a session with unsaved objects is not modelled, because every modelled operation ends in a commit or a rollback.
- PaymentService.CancelPayment: a database error of another kind (a lock that is not granted) and its translation are not modelled.
- Consumer.MerchantStore.ConsumeWebhook: two consumers racing on the same event are not modelled; the unique inbox key makes the second one a repeat.
- Verifier.VerifyDatabase: the queries by name prefix are not modelled; the rows of the run are given.
- Rendering of the checkout page and `formatMinorUnits`: user interface and the locale library.
- Schema migrations, load scripts, trace sanitising, browser suites: no state of their own.
