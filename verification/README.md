# Payout pipeline: model and proofs

The program accepts payout requests over an API, stores each with an idempotency key and an
outbox event in one transaction, relays the events to a broker under a time lease, and lets
workers execute them against a payment provider and record the result. Any stage can crash,
repeat, or run beside copies of itself. This project models that pipeline and proves what
holds of it over every run.

`dafny verify dfyconfig.toml` checks everything.

## How the model is laid out

| files | content |
|---|---|
| `Decimal`, `Amounts`, `Text`, `Utf8`, `Domain` | the amount printer with an independent reader, the amount column's rounding, trimming, byte lengths and the hashed request encoding, the status lifecycle, the provider contract and the simulator |
| `Tables`, `Transactions` | the tables as a value, each query and each transaction body as a function on it |
| `Database`, `Intake`, `Outbox`, `Execution` | the program's own form: a database object updated in place, with methods for the queries, `CreatePayout`, `RunOnce` and its loop, `HandleEvent` and `HandleDelivery`, proved against those functions |
| `Pipeline` | the transition system: create calls, relays and workers as processes over tables, queue and clock |
| `Consistency`, `Safety`, `SafetySteps` | the inductive invariant and its preservation by each action |
| `Guarantees`, `Effects`, `Restricted`, `Replay`, `Redelivery`, `Webhooks`, `Calls`, `Lease`, `Recovery` | the guarantees, unrestricted first, then under named policies, each with the exact condition where the policy is dropped |
| `Answers` | when each method succeeds and with which error it fails, told from tables, request and course of events |
| `Refinement` | every execution of the methods is a run of the transition system |
| `Counterexamples`, `Scenarios` | concrete runs and requests: why a policy is needed, and the states in which the program does not do what is meant |
| `Confirms`, `Shutdown` | the two small concurrent machines: publisher confirms and the join at shutdown |

A step of the pipeline is a partial function of an action, and the action carries every
choice the code or its environment makes: generated identifiers, the row a claim picks among
equally old ones, rows locked by others, publish outcomes, provider answers, crashes, lost
connections, time. A `Policy` restricts runs: deliveries handled one at a time, provider
results that meet the provider contract, relays that finish within the claim timeout, a
provider whose result is a function of its input. A guarantee that needs a restriction says
so in its `requires`; `UNRESTRICTED` has none.

The methods take a *course* as a parameter: whether a transaction begins, whether its commit
fails and was applied all the same, what the publish or the provider answers, and the tables
that other connections have left by the time of the method's next transaction.

## Assumptions

- A committed transaction is atomic, and a failed one leaves nothing. Each relay and worker
  transaction is one step; the create transaction is two, the read of the key and the insert,
  with other commits in between. `NOW()` is the clock at the step.
- A publish that returns nil left a copy in the queue; one that returns an error may have.
  `Confirms` shows when the client lives up to the first half and when it does not.
- The broker gives a message back when its worker dies or loses its connection. A failed ack
  or nack counts as that.
- The request hash has no collisions, so it stands for the encoded text; the text of an
  identifier is injective and free of the zero byte; decoding an encoded job or payload gives
  it back.
- No row is deleted, as no query deletes one.
- Texts are valid Unicode. Postgres refuses a text with a zero byte wherever the program
  passes one: in inserts, in the lookup by key, as failure reason, webhook URL or account.
  The texts of an event's payload come from columns, so they have none.
- A `NUMERIC(10, 2)` column rounds to the nearest hundredth, halves away from zero, and reads
  back as a number of hundredths with exponent -2.
- A query that fails for reasons outside the tables has the effect of its transaction not
  beginning.

## Where the code and its documents differ

The model follows the code.

- The design (docs/design/payout_orchestrator_mvp_system_design.md:275-281) has invalid status
  transitions rejected. The updates (internal/db/payouts.sql.go:144-183) match on the id
  alone, and the worker checks the status only in its first transaction. A final status can
  be replaced (`FinalStatusOverwritten`), and `TransitionUnlessOverwritten` gives the exact
  condition.
- `UpdatePayoutStatus` leaves an earlier failure reason in place, so a payout that succeeds
  after a recorded failure keeps it (`ReasonKeptIff`, `ReasonMatchesUnlessRecovered`).
- The design (docs/design/payout_orchestrator_system_design.md:538-540) makes `processing` no
  entry point for execution. The worker executes a payout that it finds processing, which is
  what lets a crashed execution be taken up again (`EveryPayoutCanFinish`).
- A redelivered job is acknowledged if its payout succeeded, but is an error, and requeued
  without end, if it failed (`SucceededJobCanLeave`, `FailedJobNeverLeaves`; a run that comes
  to it is `FailedJobComesBack`).
- The provider contract (internal/provider/provider.go:30-45) lets a failure reason have a
  zero byte, and the worker passes it on to the database as it is. Such a result can never be
  recorded: the job is requeued and the provider called again without end
  (`UnstorableReasonIsStuck`; `CanFinishIff` has the exact condition).
- Validation accepts every positive amount that prints, and the hash covers its text, but the
  column keeps hundredths: 1.005 is paid as 1.01 and 0.004 is refused with a database error
  (`AmountIsRounded`, `AmountIsRefused`). `PaysNearestHundredth` says what is paid and when it
  is what was asked for, `ColumnTakesIff` which amounts are taken.
- Mark and release match on the id alone as well (internal/db/outbox_events.sql.go:151-182),
  so a relay that outlives its lease can reopen a processed event (`StaleReleaseReopens`,
  `OnlyAReleaseReopens`).
- Losing a concurrent insert is meant to answer with the payout that won. With an external id
  the loser fails earlier, on the payout's unique index, and answers with a duplicate error
  (`LoserOfConcurrentInsert`; such a run is `LoserIsRefused`).
- The fallback read ignores whether it found anything; a key missing then would surface as an
  unsupported amount. It is never missing (`ReloadFindsKey`).
- The encoding that is hashed ends each part with a zero byte, and validation lets zero bytes
  through, so two accepted requests can share a hash (`TwoRequestsOneHash`). Postgres then
  refuses such texts, so no stored payout has one.
- The printer negates the exponent in 32 bits; at the least exponent it panics
  (`PrintedTextIsExact`).

## Model

| member | source | states |
|---|---|---|
| Decimal.PrintedTextIsExact | internal/apps/api/services/payouts/service.go:341-365 | every finite numeric except one with the least 32-bit exponent prints, in all three layouts and both signs, a text that an independent reader reads back as exactly Int × 10^Exp with the expected decimals; the least exponent, and nothing else, panics |
| Decimal.TextsEqualIffSameValueAndDecimals | internal/apps/payoutworker/execution/execution.go:273-297 | two non-zero numerics print alike if and only if they are equal as rationals and have equally many printed decimals |
| Decimal.TextsEqualIff | internal/apps/payoutworker/execution/execution.go:273-297 | zero included: any two finite numerics print alike if and only if they are equal as rationals, have equally many printed decimals and, if zero, the same exponent (0 × 10^0 prints "0", 0 × 10^1 prints "00") |
| Decimal.PrintsLayout | internal/apps/api/services/payouts/service.go:353-364 | the printed text is the one canonical layout of its coefficient and decimals |
| Decimal.SplitThenPrint | internal/apps/api/services/payouts/service_test.go:882-889 | splitting any canonical decimal text at the point and printing the numeric gives the text back |
| Decimal.ReadDigits | internal/apps/api/services/payouts/service.go:352 | printing a natural number and reading it gives the number, so distinct numbers have distinct numerals |
| Decimal.PadDigitsOfRead | internal/apps/api/services/payouts/service.go:358-361 | reading a digit string and printing it restores it up to its leading zeros |
| Amounts.HundredthsAreNearest | migrations/000003_payouts.up.sql:5 | what the amount column keeps is the one number of hundredths nearest to the value, a tie going away from zero |
| Amounts.ColumnTakesIff | migrations/000003_payouts.up.sql:5 | the column takes a finite amount exactly when it is at least 0.005 and less than 10^8 - 0.005, and what it keeps prints with two decimals |
| Amounts.TenDigits | migrations/000003_payouts.up.sql:5 | a finite amount is taken exactly when its nearest number of hundredths is positive and has at most ten digits, and that number is what is stored |
| Text.TrimFindsCore | internal/apps/api/services/payouts/service.go:407-423 | trimming removes exactly the white space around a core that has none at its ends |
| Text.TrimIgnoresPadding | internal/apps/api/services/payouts/service.go:407-423 | white space around any text makes no difference to trimming it |
| Utf8.ByteLengthCountsBytes | internal/apps/api/services/payouts/service.go:407-423 | the length compared with a limit is that of the UTF-8 encoding, which decodes to the text |
| Text.CreatePayoutRequestHash | internal/apps/api/services/payouts/service.go:371-379 | the loop feeds every part followed by a zero byte, in order |
| Text.EncodeSeparates | internal/apps/api/services/payouts/service.go:371-379 | lists of one length with one encoding are equal, provided one of them is free of the zero byte |
| Text.SeparatedIff | internal/apps/api/services/payouts/service.go:371-379 | no other list of its length has the encoding of a list if and only if its parts are free of the zero byte or it has at most one part |
| Domain.SimulatorMeetsContract | internal/providersimulator/simulator.go:34-75 | the simulator answers exactly when not cancelled and its outcome is known, its answers meet the provider contract, its own check never fires, and its answer does not depend on the input |
| Domain.SimulatorAnswers | internal/providersimulator/simulator.go:34-75 | the answer of every configuration: which outcome gives which status, the reason without the white space around it, the default for none |
| Domain.ContractIff | internal/provider/provider.go:30-45 | the contract is met exactly by a success whose reason is white space or empty and a failure whose reason is not |
| Domain.FinalIffNoTransition | internal/domain/payout/status.go:12-30 | among the known statuses the final ones are exactly those no transition leads out of |
| Domain.TransitionIffNextRank | internal/domain/payout/status.go:21-30 | a transition is allowed exactly between known statuses of consecutive rank |
| Tables.NextExists | internal/db/outbox_events.sql.go:48-67 | the claim query finds an oldest eligible unlocked row exactly when there is an eligible unlocked row |
| Transactions.AcceptedIff | internal/apps/api/services/payouts/service.go:112-156 | a request is accepted exactly when its identifiers and amount parse, the amount is positive, finite and printable, and the trimmed texts are present and short enough; the call then carries the trimmed texts and an amount text that reads back exactly |
| Answers.RefusedWith | internal/apps/api/services/payouts/service.go:107-156 | which error each refused request gets, by the first of its fields that fails |
| Transactions.PaddingChangesNothing | internal/apps/api/services/payouts/service.go:112-161 | requests that differ only in white space around the five trimmed texts validate to the same call, with one key and one hash, or fail alike |
| Answers.StoresTheRequest | internal/apps/api/services/payouts/service.go:186-194 | the row that a successful create transaction stores, column by column from the call |
| Consistency.InsertTxEffect | internal/apps/api/services/payouts/service.go:175-226 | a create transaction that succeeds found key, payout and event free, the source the client's, the texts free of the zero byte and the amount one the column takes, and adds exactly one row to each of three tables |
| Answers.InsertTxAnswers | internal/apps/api/services/payouts/service.go:175-226 | over consistent tables the create transaction succeeds exactly when nothing refuses it, and otherwise ends with the error of the first that does: source, texts, amount, identifier, external id, key, event |
| Consistency.InsertTxConsistent | internal/apps/api/services/payouts/service.go:165-230 | it keeps the one-to-one correspondence, the unique external ids and, for every key, a request with the key's hash whose row is the payout's; it changes no earlier row |
| Consistency.PrepareTxEffect | internal/apps/payoutworker/execution/execution.go:116-155 | the first worker transaction fails exactly for a payout missing, of another client or failed; it asks for execution exactly when not final, with the payout's own input, and moves pending to processing |
| Consistency.PrepareTxConsistent | internal/apps/payoutworker/execution/execution.go:116-155 | it keeps the tables consistent and no status falls in rank |
| Answers.RecordTxAnswers | internal/apps/payoutworker/execution/execution.go:167-244 | recording succeeds exactly for a success, or a failure whose reason has no zero byte, with a new event identifier if the webhook column holds more than white space; the row gets the status and, after a failure, the provider's own reason or none if it is blank, and one event is added exactly if the column does, to the text it holds between white space; otherwise which error |
| Answers.WebhookGoesToCore | internal/apps/payoutworker/execution/execution.go:222-243 | with a column written as white space, a trimmed text and white space, the webhook goes to exactly that text, and there is none if it is empty |
| Consistency.RecordTxConsistent | internal/apps/payoutworker/execution/execution.go:167-244 | it keeps the tables consistent and no status falls in rank |
| Database.Database.Begin | internal/apps/api/services/payouts/tx.go:45-48 | the tables to roll back to are those at the beginning |
| Database.Database.Commit | internal/apps/api/services/payouts/tx.go:60-66 | after a commit all writes stay; after a failed one that was not applied none does |
| Database.Database.Rollback | internal/apps/api/services/payouts/tx.go:50-58 | undoes every write since the beginning |
| Database.Database.CreatePayout | internal/db/payouts.sql.go:14-64 | inserts the row with its amount rounded to hundredths, or fails on a text, the amount or a constraint and changes nothing |
| Database.Database.GetPayoutByClientID | internal/db/payouts.sql.go:66-95 | finds the row only for its own client |
| Database.Database.UpdatePayoutStatus | internal/db/payouts.sql.go:178-208 | sets the status of the row with the id whatever it was, and leaves the reason |
| Database.Database.UpdatePayoutFailure | internal/db/payouts.sql.go:144-176 | sets failed and the reason of the row with the id whatever they were; refuses a reason with a zero byte |
| Database.Database.GetFundingSourceByClientID | internal/db/funding_sources.sql.go:48-73 | finds the row only for its own client |
| Database.Database.GetIdempotencyKey | internal/db/idempotency_keys.sql.go:45-66 | finds the key of the client; a key with a zero byte is an error, not a key that is missing |
| Database.Database.CreateIdempotencyKey | internal/db/idempotency_keys.sql.go:14-43 | inserts the key, or fails when the key or the payout id is taken and changes nothing |
| Database.Database.CreateOutboxEvent | internal/db/outbox_events.sql.go:90-116 | inserts a pending event |
| Database.Database.ClaimNextPendingOutboxEvent | internal/db/outbox_events.sql.go:14-88 | stamps an oldest eligible unlocked row, or reports none exactly when there is none and changes nothing |
| Database.Database.Oldest | internal/db/outbox_events.sql.go:57-60 | the loop finds a row that none is older than |
| Database.Database.MarkOutboxEventAsProcessed | internal/db/outbox_events.sql.go:151-174 | marks the row with the id whatever its claim |
| Database.Database.ReleaseOutboxEventClaim | internal/db/outbox_events.sql.go:176-199 | returns the row with the id to pending whatever its status |
| Intake.Service.Validate | internal/apps/api/services/payouts/service.go:112-161 | validation with its order of errors |
| Intake.Service.LoadPayout | internal/apps/api/services/payouts/service.go:381-405 | no key is no payout, another request's hash is a conflict, otherwise the key's payout |
| Intake.Service.InsertInTx | internal/apps/api/services/payouts/service.go:175-230 | the writes in their order with the error of the first that fails; success is all three rows |
| Intake.Service.CreatePayout | internal/apps/api/services/payouts/service.go:107-240 | the answer and the tables left in every course: rollback on an error, the fallback read after a lost insert, a commit that fails |
| Answers.CreateAnswers | internal/apps/api/services/payouts/service.go:107-240 | what CreatePayout answers in every course over consistent tables: the payout stored for its key and request, a conflict for another request, its own new payout, the error of what refuses the insert, or what the fallback read finds |
| Answers.CreateSucceedsIff | internal/apps/api/services/payouts/service.go:163-240 | it succeeds if and only if its key was stored for its request and the commit works, or nothing refuses the insert and the commit works, or only the key does and the fallback finds it stored for its request |
| Outbox.Relay.ClaimNextPendingEvent | internal/outbox/relay.go:155-186 | claims an oldest eligible event, or nothing exactly when there is none |
| Outbox.Relay.FinishEvent | internal/outbox/relay.go:188-200 | marks after a dispatch that succeeded, releases after one that failed |
| Outbox.Relay.RunOnce | internal/outbox/relay.go:114-153 | what one round claims, sends, writes and answers in every course, the event sent being the one claimed |
| Answers.RunOnceAnswers | internal/outbox/relay.go:114-153 | a round that claimed answers true exactly when publish and both transactions worked, the failed dispatch exactly when only the publish failed, and otherwise the first transaction's error |
| Answers.RoundLeaves | internal/db/outbox_events.sql.go:151-199 | after a smooth round alone at work a dispatched event is processed, with the time, and never eligible again, a failed one is pending and eligible at once, and nothing else changed |
| Outbox.Relay.RunUntilIdle | internal/outbox/relay.go:97-111 | alone at work, the loop stops without error only when nothing of its types is left, having dispatched each unprocessed event once and oldest first; it ends, the measure being the unprocessed events, and fails only at the first failed publish, leaving that event to be done |
| Outbox.Relay.Run | internal/outbox/relay.go:89-112 | over any number of pauses in which new events arrive: the loop ends when the context does, having dispatched every event there has been of its types exactly once, or at a failed publish |
| Outbox.ProgressStep | internal/outbox/relay.go:97-103 | one more round keeps every event dispatched once and oldest first |
| Outbox.PicksOldest | internal/db/outbox_events.sql.go:48-67 | the event picked is unprocessed and none left over is older |
| Execution.Handler.PrepareExecutionInTx | internal/apps/payoutworker/execution/execution.go:116-155 | the decision by status, and the status update |
| Execution.Handler.PrepareExecution | internal/apps/payoutworker/execution/execution.go:88-114 | an error rolls the status update back |
| Execution.Handler.CreateWebhookOutboxEventIfConfigured | internal/apps/payoutworker/execution/execution.go:216-244 | one event with the row's status and reason when the trimmed URL is not empty, nothing otherwise |
| Execution.Handler.RecordExecutionResultInTx | internal/apps/payoutworker/execution/execution.go:167-214 | the row update by result and the webhook event |
| Execution.Handler.RecordExecutionResult | internal/apps/payoutworker/execution/execution.go:157-165 | both in one transaction, or neither |
| Execution.Handler.HandleEvent | internal/apps/payoutworker/execution/execution.go:46-79 | the answer, the tables left and the provider call made, in every course |
| Execution.Worker.HandleDelivery | internal/apps/payoutworker/worker.go:48-74 | a message that does not decode is dropped, one whose handling failed is requeued, and only a handled one is acked |
| Answers.AcknowledgedIff | internal/apps/payoutworker/worker.go:48-74 | a handled delivery is acknowledged if and only if it is a job of a stored payout whose preparation commits and that was succeeded already, or was not final and a storable result is recorded; it is dropped exactly if it does not decode, and goes back otherwise |
| Answers.CalledIff | internal/apps/payoutworker/execution/execution.go:46-75 | the provider is called exactly for a job of a stored payout not yet final whose preparation commits, with the payout's input |
| Refinement.CreatePayoutIsARun | internal/apps/api/services/payouts/service.go:163-239 | every execution of CreatePayout, beside any runs of other processes, is a run of the pipeline with the same tables, and a successful answer is on record there |
| Refinement.CreatePayoutIsIdempotent | internal/apps/api/services/payouts/service.go:165-239 | two successful CreatePayout executions of one client whose keys trim alike answer with one payout and had one request |
| Refinement.ErrorLeavesNoRows | internal/apps/api/services/payouts/tx.go:50-66 | an execution that answers with an error leaves no row of its own, unless its commit was applied and reported as failed |
| Refinement.RunOnceIsARun | internal/outbox/relay.go:114-153 | every RunOnce that claims an event, beside other processes, is a run of the pipeline with the same tables and, alone, the same queue |
| Refinement.HandleDeliveryIsARun | internal/apps/payoutworker/worker.go:48-74 | every handled delivery, beside other processes and with its connection lost at any time or not, is a run of the pipeline with the same tables; its provider call is on record; a message whose connection was lost is back in the queue, any other is gone exactly when an ack or a drop was taken |
| SafetySteps.StepKeepsInv | internal/apps/payoutworker/execution/execution.go:46-79 | every action of the pipeline keeps the invariant and lets the tables only evolve |
| Guarantees.NoAcceptedPayoutIsLost | internal/outbox/relay.go:114-153 | in every reachable state, with any number of processes, crashes, uncertain publishes and stale releases, a payout that is not final has its process event unprocessed or that event's message queued or with a worker the broker waits for |
| Guarantees.CreationIsIdempotent | internal/apps/api/services/payouts/service.go:165-239 | any two create calls of one client and trimmed key that ever succeeded, through whichever path, got one payout and had equal normalised requests |
| Guarantees.SameHashIffSameFields | internal/apps/api/services/payouts/service.go:153-161 | two calls have one hash exactly when they agree in every hashed field, provided the texts of one are free of the zero byte, which those of a stored payout are |
| Guarantees.ZeroByteSharesHash | internal/apps/api/services/payouts/service.go:153-161 | an accepted request whose external id has a zero byte shares its hash with another accepted request of other fields, provided the part before it is trimmed and the rest fits the recipient name |
| Guarantees.CreateIsAllOrNothing | internal/apps/api/services/payouts/service.go:186-230 | a create step that changes the tables adds exactly one payout, one key and one event, linked; any other leaves them as they were |
| Guarantees.SecondInsertFails | internal/apps/api/services/payouts/service.go:186-214 | in every reachable state where the key is stored for this request, however long ago: the insert fails on the key, or with an external id on the payout, and the key leads to the stored payout |
| Guarantees.LoserOfConcurrentInsert | internal/apps/api/services/payouts/service.go:232-234 | of two concurrent calls with one request, with any runs of anything between the winner's commit, the loser's insert and its fallback read: the loser leaves no row; exactly without an external id it comes to read again, and answers with the winner's payout; with one it is refused |
| Guarantees.ReloadFindsKey | internal/apps/api/services/payouts/service.go:232-234 | whenever the fallback read runs it finds the key: it answers with the stored payout exactly when the key was stored for this request, with a conflict otherwise, and never with the error of a missing key |
| Guarantees.RepliesStay | internal/apps/api/services/payouts/service.go:228-239 | answers given stay on record over every run |
| Guarantees.OneToOne | migrations/000013_idempotency_keys_payout_unique.up.sql:1-2 | in every reachable state payouts, keys and process events correspond one to one, with matching payout and client in row, key and payload |
| Guarantees.CallsAreIdentical | internal/apps/payoutworker/execution/execution.go:66-75 | all provider calls ever made for a payout carry identical input: the payout's amount and currency and the account of its own funding source, which belongs to its client |
| Guarantees.StoredAsRequested | internal/apps/api/services/payouts/service.go:186-200 | over every run the payout that a call was answered with holds what the call asked for, column by column, its amount to the nearest hundredth |
| Guarantees.PaysNearestHundredth | internal/apps/payoutworker/execution/execution.go:66-75 | over every run, every provider call for an answered create call is for its source and currency and the requested amount rounded to the nearest hundredth, which is the requested amount exactly when that is a whole number of hundredths |
| Guarantees.RankNeverFalls | internal/apps/payoutworker/execution/execution.go:133-214 | over every run no payout disappears, nothing but status and reason changes in it, and the status never falls in rank |
| Restricted.ChangesAreTransitions | internal/domain/payout/status.go:21-30 | with deliveries one at a time every status change, across crashes and redeliveries, is one that CanTransition allows |
| Restricted.TransitionUnlessOverwritten | internal/db/payouts.sql.go:178-183 | unrestricted: a reachable step changes a status only as CanTransition allows if and only if it does not commit another status over a final one |
| Restricted.FinalRowKeptIff | internal/db/payouts.sql.go:144-183 | unrestricted: a reachable step leaves a final payout's row as it is if and only if it does not commit another status over it or, to a failed one, another reason |
| Restricted.NoCallAfterFinal | internal/apps/payoutworker/execution/execution.go:55-75 | with deliveries one at a time the provider is called only for a payout in processing |
| Restricted.FinalNeverChanges | internal/apps/payoutworker/execution/execution.go:167-214 | with deliveries one at a time, or a provider whose result is a function of its input, a final payout's row never changes again |
| Restricted.ReasonExactlyWhenFailed | internal/provider/provider.go:30-45 | with contract results and either restriction, a payout has a non-blank reason exactly when it is failed |
| Restricted.ReasonKeptIff | internal/apps/payoutworker/execution/execution.go:167-195 | with contract results and no other restriction: a reachable step keeps reason and status matched if and only if it does not commit a success over a row that has a reason |
| Replay.RowReplaysRecordings | internal/apps/payoutworker/execution/execution.go:167-195 | unrestricted, over every run: a payout is final exactly when a result was recorded for it; its status is that of the last recording and its reason that of the last recorded failure |
| Replay.ReasonMatchesUnlessRecovered | internal/provider/provider.go:30-45 | with contract results and no other restriction, over every run: a payout has a non-blank reason exactly when failed, if and only if its last recording is not a success after a recorded failure |
| Redelivery.FailedJobNeverLeaves | internal/apps/payoutworker/execution/execution.go:143-147 | with either restriction: once a payout is failed and a copy of its job is queued, a copy is queued or held over every run, as every delivery of it is requeued |
| Redelivery.SucceededJobCanLeave | internal/apps/payoutworker/execution/execution.go:144-145 | whatever other workers do, a succeeded payout's copy is acknowledged by an idle worker in three steps that change nothing else |
| Redelivery.ErrorIsLikeCrash | internal/apps/payoutworker/worker.go:62-71 | an error at any stage of handling, the provider's included, is answered with a requeue and comes to the same state as the death of the worker there |
| Calls.CallsAreAccounted | internal/apps/payoutworker/execution/execution.go:55-78 | over every run the provider calls for a payout, all with its input, are as many as its committed recordings, the calls cut off before one, and the workers in between now |
| Calls.NoNeedlessCall | internal/apps/payoutworker/execution/execution.go:55-78 | with deliveries one at a time the calls for a payout are as many as were cut off, plus one exactly when it is final or a worker is in between |
| Webhooks.WebhooksAreConserved | internal/apps/payoutworker/execution/execution.go:216-244 | a payout's webhook events are as many as its committed recordings that saw a webhook column with more than white space, and each goes to the text one of those columns holds between white space |
| Webhooks.OneWebhookPerFinalPayout | internal/apps/payoutworker/execution/execution.go:169-202 | with deliveries one at a time a payout is recorded once exactly when it is final, with one webhook event exactly when the webhook column held more than white space then |
| Webhooks.WebhooksTellTheResult | internal/apps/payoutworker/execution/execution.go:227-243 | with either restriction every webhook event names its payout and tells its client, final status and reason |
| Lease.OneHolder | internal/outbox/relay.go:119-150 | when every relay finishes within the timeout of its claim or dies, at most one live relay holds an event, and none holds a processed one |
| Lease.ProcessedIsFinal | internal/db/outbox_events.sql.go:48-67 | then a processed event stays processed over every run and is not dispatched again |
| Lease.DispatchesAreAccounted | internal/outbox/relay.go:137-147 | then an event's successful dispatches are its interruptions between dispatch and mark, plus one if it is processed or about to be |
| Lease.OnlyAReleaseReopens | internal/db/outbox_events.sql.go:176-182 | unrestricted: a processed event becomes open in a step if and only if the step is a release by a relay that gave that event up |
| Lease.StampsInOrder | internal/db/outbox_events.sql.go:151-199 | in every reachable state an event's times are in order, it has a claim time exactly while in processing, and a processed one has its time |
| Recovery.EveryPayoutCanFinish | internal/apps/payoutworker/execution/execution.go:46-79 | from every reachable state, under every policy, a finite failure-free continuation leaves every payout succeeded or failed; if the policy names a provider, every payout whose answer can be stored |
| Recovery.CanFinishIff | internal/apps/payoutworker/execution/execution.go:186-195 | with a provider whose answer is a function of its input, some run makes an unfinished payout final if and only if the answer to its input is a success or a failure whose stored reason is free of the zero byte |
| Recovery.DrainOutbox | internal/outbox/relay.go:97-111 | once claims have expired, relaying oldest first leaves no process event open |
| Recovery.DeliverAll | internal/apps/payoutworker/worker.go:48-74 | then handling the queued messages leaves every payout final |
| Counterexamples.StaleReleaseReopens | internal/outbox/relay.go:137-143 | a reachable state and a step of a relay past its lease that puts a processed event back to pending |
| Counterexamples.FinalStatusOverwritten | internal/apps/payoutworker/execution/execution.go:167-195 | two workers on one message, with contract results: a failed payout becomes succeeded and keeps its reason |
| Counterexamples.TwoRequestsOneHash | internal/apps/api/services/payouts/service.go:153-161 | two accepted requests with different fields and one hash: external id "a\0b" and recipient "c", external id "a" and recipient "b\0c" |
| Counterexamples.AmountIsRounded | internal/apps/api/services/payouts/service.go:134-137 | an accepted request for 1.005 whose row holds 1.01 |
| Counterexamples.AmountIsRefused | internal/apps/api/services/payouts/service.go:134-137 | an accepted request for 0.004 that no tables take |
| Scenarios.LoserIsRefused | internal/apps/api/services/payouts/service.go:186-214 | a reachable state with two calls of one key and one request, external id "e": the first commits, the second ends with a duplicate external id |
| Scenarios.LoserIsAnswered | internal/apps/api/services/payouts/service.go:232-239 | the same without an external id: the second reads again and answers with the first's payout |
| Scenarios.FailedJobComesBack | internal/apps/payoutworker/worker.go:62-74 | a state reachable with deliveries one at a time, where a worker recorded a failure and died before its ack: the job is queued, and in transit over every run from there |
| Scenarios.UnstorableReasonIsStuck | internal/apps/payoutworker/execution/execution.go:188-195 | a reachable state with a contract-meeting failure whose reason has a zero byte: its recording fails, and no run ever makes the payout final |
| Confirms.Client.Arrive | internal/platform/rabbitmq/client.go:57-63 | confirmations arrive numbered in the order of the delivery tags |
| Confirms.Client.WaitForPublishConfirm | internal/platform/rabbitmq/client.go:182-228 | which confirmation and which return a wait takes and what it answers, for every arrival and every branch of both selects |
| Confirms.Client.Publish | internal/platform/rabbitmq/client.go:144-180 | a publish without exchange or routing key fails and touches nothing; otherwise the delivery tag it uses and its outcome |
| Confirms.SelectsTakeWhatWaits | internal/platform/rabbitmq/client.go:182-228 | over every run, a publish that is sent takes a confirmation or a return if and only if a select that picks one finds one waiting, more having arrived than were taken, be it positive or negative; nil exactly for an acknowledgement its first select took |
| Confirms.UnsentTakesNothing | internal/platform/rabbitmq/client.go:144-180 | a publish that is not sent fails and takes nothing |
| Confirms.PromptPublishesSettle | internal/platform/rabbitmq/client.go:144-228 | told by the courses alone: if every message is sent and its verdict arrives before the select that picks one, each publish takes its own confirmation |
| Confirms.OwnConfirmationIff | internal/platform/rabbitmq/client.go:161-228 | over every run, a publish that takes a confirmation takes its own if and only if every earlier one that used a tag took one |
| Confirms.OwnReturnIff | internal/platform/rabbitmq/client.go:190-226 | over every run in which the broker returns messages in order and each at most once: a publish that takes a return takes its own if and only if every return of an earlier message was taken before, otherwise an earlier message's |
| Confirms.AlignedPublish | internal/platform/rabbitmq/client.go:182-228 | while every wait takes a confirmation, a publish returns nil exactly when its own message was acknowledged and no return was taken first |
| Confirms.KthTakesKth | internal/platform/rabbitmq/client.go:161-228 | with every send a success as well, the k-th publish takes the k-th confirmation |
| Confirms.NilWasAcknowledged | internal/platform/rabbitmq/client.go:199-207 | over every run, nil stands for the acknowledgement of the message as many back as earlier waits gave up |
| Confirms.NilForARefusedMessage | internal/platform/rabbitmq/client.go:191-195 | after one wait timed out, a publish returns nil although the broker refused its message |
| Confirms.NilForAReturnedMessage | internal/platform/rabbitmq/client.go:190-208 | a returned message's publish returns nil when the select takes the acknowledgement, and the next publish fails on the stale return |
| Shutdown.JoinsBoth | cmd/api/main.go:120-192 | for every order of server end, relay end and signal, with or without a relay: on return the context was cancelled, the server shut down, each done channel received from once, and server and shutdown errors go before the relay's |
| Shutdown.ServerErrorsGoFirst | cmd/api/main.go:152-218 | which error is returned, from the run's actions: the server's if the select took it, else a failed shutdown's, then the server's, and the relay's only if both were clean |
| Shutdown.ReturnsNilIff | cmd/api/main.go:179-208 | it returns nil exactly when server, shutdown and relay all ended without an error of their own, a closed server and a cancelled relay being none |
| Shutdown.WaitsOnlyAfterCancel | cmd/api/main.go:152-178 | the routine blocks only in its select before anything ended, or on a goroutine it has told to stop |
| Shutdown.AlwaysReturns | cmd/api/main.go:137-192 | no run has more than eight steps and one that cannot go on has returned: no deadlock |
| Shutdown.RunApplication | cmd/api/main.go:120-192 | one receive from each done channel and the error that goes first, from what server, relay and shutdown ended with and the branch the select takes; the answer and the receives are those of a run of the interleaved goroutines |
| Shutdown.EveryCourseIsARun | cmd/api/main.go:137-192 | for every branch and every result of server, shutdown and relay some interleaving comes to it and returns the preferred error |

## Left out

- HTTP handlers, routing, authentication, environment loading, logging: request plumbing.
- JSON encoding and decoding, SHA-256, UUID parsing and numeric parsing: library calls, taken as stated under Assumptions.
- Isolation finer than whole transactions: two prepare transactions interleaved statement by statement are not covered.
- Text lengths and jsonb re-serialising in the tables; numerics with more digits than the driver or NUMERIC itself can carry.
- Time columns of payouts and keys, listing and pagination, API keys, client and funding-source management beyond adding one and setting a webhook URL, webhook delivery rows.
- Relays configured with other event types in the transition system: there they relay process events, as the API configures them; `Outbox.Relay` takes any list of types.
- Foreign messages in the queue other than ones that do not decode.
- Connecting, topology declaration and closing of the AMQP channel, and the consume loop around HandleDelivery; the capacity of the confirmation and return channels.
- Nil-configuration checks of services, relay and worker.
- The design documents' awaiting_retry status, recovery service and funding-source status checks, which the code does not have.
- Outbox.Relay.Run: has other relays beside it only in the transition system, because its claim of one dispatch each is false beside a relay past its lease; the ticker is the pause between rounds.
- AlignedPublish: the pipeline's publish outcome is an assumption about the client, not derived from it, because a returned message can be answered with nil.
- EveryPayoutCanFinish: states that a continuation exists, not that a scheduler takes it, because the code gives no fairness.
- RunApplication: takes the select's branch and the goroutines' results as parameters; their interleaving is the subject of the transition system beside it.
