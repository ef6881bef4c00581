# A verified model of an SMS messaging platform

The platform accepts SMS messages over an API, reserves their price in a prepaid
wallet, routes and submits them to providers through event handlers connected by a
transactional outbox, and settles them by the outcome and by delivery receipts. This
project models its core in Dafny and proves what that core is meant to guarantee.
`dafny verify dfyconfig.toml` checks everything.

## The message, wallet and outbox protocol

`Messages.dfy` holds the rows, events and keys; `Store.dfy` each database transaction
as a function from tables to tables or to the error that rolls it back. `Services.dfy`
carries out the same transactions on mutable tables, statement by statement with
rollback, and is proved against those functions. `Protocol.dfy` is the running system:
every delivery of every event, the snapshot its handler has read, and one atomic step
per read, transaction, provider call, crash, redelivery and receipt. A run is any
interleaving of steps, so snapshots are arbitrarily stale, receipts are acted on as they
were read, after others have processed them or a repeated callback has overwritten them,
and events are repeated and reordered at will. Routes, fraud verdicts, provider outcomes, retry policies and clocks
are inputs of a step.

`Settlement.dfy` proves what every committed write keeps of rows, histories, ledger and
wallets, `Deliveries.dfy` what every step keeps of handlers, keys and live events,
`Attempts.dfy` a potential that bounds provider calls, and `Guarantees.dfy` draws the
results for all reachable states. `Outcomes.dfy` says for each step, over the columns of
the tables alone, what it leaves: which row, which money, which event, and that nothing
else changes. `Progress.dfy` shows that from each of them a message
that is not parked can still be settled. Three results are worth a word.

* The ledger's idempotency keys alone would not stop a message being released twice,
  since the three release paths use three keys. What stops it is the guarded
  transition: a handler's write commits exactly when its snapshot is still the whole
  current row (`HandlersCommitIffSnapshotIsCurrent`).
* `handleRetry` enqueues under a version it never checks, so its event can meet a used
  key and be dropped. It never drops the last one, because the chain that holds the
  retry-dispatch key of the current version is still alive (`SomethingIsAlwaysLive`).
* Two parked cases are real and shown reachable in `Parking.dfy`: a message throttled
  while `routed` (its retry event is dropped because the row is not `submitting`) and
  one whose outcome was uncertain (it waits for a reconciliation). Only a duplicated
  event can revive a parked message, so a message without one is parked exactly when it
  has no live event left that can move it (`ParkingIsExact`).

Handlers crash and throw at any point, and brokers deliver again. A duplicate is an event
delivered again after its handler finished, or while it is still in flight. A redelivery
is one of those, or one lost after its attempt was counted. Losing a handler that had
written nothing counts as neither.

`Schema.dfy` adds the trigger that the schema puts on message updates. A fraud block makes
two updates in one transaction and stamps both with the same time, which the trigger
rejects: under the shipped schema a block never takes effect and its event is delivered
again and again (`BlocksNeverTakeEffect`, with a run in `CurrentBlockIsRejected`). With a
clock that moves on, nothing else a handler does is rejected, and every run with the
trigger is a run without it.

`Correlation.dfy` is the matching of receipts to messages: that the decision depends on
the whole table and not on the five rows fetched, and which evidence outweighs which.

## Rate limits, circuit breaker, outbox relay, campaigns

`RateLimit.dfy` is the token bucket over real numbers, with the expiring key as part of
the state. A key keeps one configuration, and timestamps are in order: the bound holds
for whatever is asked exactly when they are (`BoundHoldsIffClockIsOrdered`). Nor is a call
refused that the bound would have had room for (`RefusedIffOverBudget`).

`CircuitBreaker.dfy` has each call as one operation on two expiring keys, with the
several instants at which the call and the store read the time. The half-open state is
rarer than its name suggests: the key of a breaker opened by a failure outlives its probe
time by as long as the write took to reach the store, and only a question in that gap
turns it half-open (`FailuresProbeOnlyInTheGap`); after it the breaker is simply closed.

`OutboxRelay.dfy` has one flush as a method and any number of workers as a state
machine in which a worker can be lost or late at any point. A late worker's failure
takes a published row back (`OverrunUnpublishes`); a published row is safe exactly when
nobody holds it, and among workers that keep within their leases nobody does. Claims
exclude one another exactly while no held lease is overrun.

`Campaigns.dfy` takes the cron library as a function to the next firing, or to nothing
when the library throws. The row lock and the unordered query appear as any selection
the query may return. Findings: a cron expression the library refuses rolls back the
whole batch it is selected with (`BatchEffect`); the first run may precede the start by
less than a second (`FirstRunMayPrecedeStart`); a cancelled campaign's schedule that is
reactivated still makes jobs (`ReactivatedAfterCancelRuns`).

## Text

`Csv.dfy` is the CSV printer with an independent reader. `Templates.dfy` separates what
the placeholder pattern says from how it is scanned. `Contacts.dfy` parses and imports
contact files; the promise of its parser is shown to admit one result only. Row numbers
count lines of the trimmed content, so leading blank lines are not counted.

## Model

| member | source | states |
|---|---|---|
| `Guarantees.MoneyIsConserved` | src/messages/messages.service.ts:254-314 | in every reachable state each wallet's reserved balance is the sum of max(price, 0) over its tenant's `reserved` messages; available + reserved + all debits is the opening balance; available never falls below minus the credit limit |
| `Guarantees.SettledExactlyOnce` | src/messages/message-workflow.service.ts:317-347 | a priced message has exactly one reserve entry, and one debit or one release entry exactly when it is no longer `reserved`, although blocking, final failure and receipts release under three different keys; a free message has none |
| `Guarantees.EntriesAreExact` | src/messages/messages.service.ts:316-367 | every ledger entry is for its message's own tenant and price, under the key of its operation, and records a balance that falls by the amount |
| `Guarantees.ReleasedIffFailedUnsent` | src/messages/message-workflow.service.ts:630-655 | `released` exactly when failed and never sent, `debited` exactly when sent, `reserved` exactly before an outcome |
| `Guarantees.HandlersCommitIffSnapshotIsCurrent` | src/messages/messages.service.ts:531-574 | as far as the program's own statements go, a handler's transaction commits exactly when its stale snapshot still equals the current row in every column, and otherwise fails with a version conflict only; the schema's trigger adds the case in `Schema.CommitsUnderTriggerIff` |
| `Guarantees.RepeatedSubmissionChangesNothing` | src/messages/messages.service.ts:746-769 | once a message is taken, a submission with one of its client keys on the same day changes nothing, in every later state |
| `Guarantees.ClientKeysNameOneMessage` | src/messages/messages.service.ts:746-769 | in every reachable state a client key names at most one message of its tenant and day |
| `Schema.CommitsUnderTriggerIff` | migrations/001_init.sql:371-416 | with the schema's trigger, in every run, a handler's transaction commits exactly when its snapshot is the whole current row, it is not a fraud block, and it began after the row was last changed |
| `Schema.BlocksNeverTakeEffect` | migrations/001_init.sql:379-381 | with the trigger a fraud block never takes effect: its two updates carry one stamp, so its handler is thrown out and the event delivered again |
| `Schema.NothingIsReleasedForFraud` | src/messages/message-workflow.service.ts:328-334 | so no run with the trigger releases a reservation for fraud |
| `Schema.StampedRunsAreRuns` | migrations/001_init.sql:371-416 | every state with the trigger is a reachable state without it, so the guarantees about reachable states hold with it |
| `Schema.SingleUpdateIsLegal` | migrations/001_init.sql:375-409 | every single update of an event handler passes the trigger's version and status checks |
| `Schema.ReceiptIsLegal` | migrations/001_init.sql:401-407 | a receipt's update passes them too, by the edge from `provider_accepted` to `failed` with its error code where it fails the message; it conflicts exactly when the guard fails |
| `Schema.ReceiptsCommitIffSnapshotIsCurrent` | src/dlr/dlr.processor.service.ts:170-277 | a receipt's transaction fails exactly when it updates a row and its snapshot is not the whole current row |
| `Schema.ReceiptsUnderTriggerIff` | migrations/001_init.sql:371-416 | with the trigger, in every run, a receipt that updates a row commits if and only if its snapshot is the whole current row and it began after the row was last changed; the others always commit |
| `Schema.StampsAreEarlier` | src/messages/messages.service.ts:513-513 | when a step begins later than every step before it, every row was changed earlier |
| `Schema.OnlyBlocksAreRejected` | migrations/001_init.sql:379-381 | so with a clock that moves on, blocks are the only transactions of handlers the trigger rejects |
| `Schema.CurrentBlockIsRejected` | src/messages/message-workflow.service.ts:319-327 | the failing input: a run with the trigger after which a block on the whole current row, with time moved on, would commit but for the trigger, and is rejected |
| `Guarantees.OnlyVersionConflictsFail` | src/messages/messages.service.ts:289-302 | a handler never meets the two "reserved balance is insufficient" errors, a missing wallet or an illegal transition; a submission fails only for want of money or of a wallet |
| `Guarantees.CorrelatedMessageWasDebited` | src/messages/messages.service.ts:1206-1339 | any row receipt correlation can answer with was taken by the provider, sent and debited |
| `Guarantees.ReceiptsMoveNoMoney` | src/dlr/dlr.processor.service.ts:222-252 | the release branch for a `reserved` message is never taken: receipts change no wallet and no ledger entry |
| `Guarantees.HistoriesArePaths` | src/messages/messages.types.ts:9-16 | the committed versions of a row are numbered 0 to its current version without gaps, each follows from the one before along the status graph, and the row is the newest |
| `Guarantees.NoUpdateIsLost` | src/messages/messages.service.ts:508-576 | whatever happens later, no committed version of any row changes or disappears |
| `Guarantees.TerminalRowsAreFinal` | src/messages/messages.types.ts:14-15 | a delivered or failed row is the same row after any further run |
| `Guarantees.SomethingIsAlwaysLive` | src/messages/message-workflow.service.ts:204-228 | an accepted message always has a live accepted event, a routed one a live dispatch event unless throttled, a submitting one a live dispatch, result or current retry event unless its outcome was uncertain: dedupe never drops the last one, in spite of the unguarded enqueue of the retry handler |
| `Progress.EveryMessageCanFinish` | src/messages/message-workflow.service.ts:152-656 | from every reachable state, at most nine steps of a message's own handlers, none of them a crash or a second delivery, settle it or park it |
| `Progress.FinishingRun` | src/messages/message-workflow.service.ts:152-656 | and those steps are a run |
| `Guarantees.QueuedEventsCarryTheirRouting` | src/messages/message-workflow.service.ts:184-200 | an accepted, dispatch, retry or retry-dispatch event carries the provider and SMPP configuration of the row version named in its key |
| `Attempts.AttemptsAreBounded` | src/messages/message-workflow.service.ts:386-403 | in every run, provider calls for a message are at most its attempt count, which is at most max(1, largest retry policy) plus the number of redeliveries; a handler thrown out before it wrote is not charged |
| `Parking.ParkingIsExact` | src/messages/message-workflow.service.ts:350-543 | in every run, a message none of whose events was duplicated (crashes and lost version races before a handler finished do not count) has a live event that can move it if and only if its last update did not park it: a routed one exactly when that was not a throttle, a submitting one exactly when that was not an uncertain outcome |
| `Parking.StepParked` | src/messages/message-workflow.service.ts:152-656 | no step of anything gives a parked message an event that can move it, short of a duplicate of an event |
| `Parking.NeverBackToRouting` | src/messages/messages.types.ts:9-16 | a version past routing is never followed by one that is not |
| `Parking.ThrottledWhileRoutedIsStuck` | src/messages/message-workflow.service.ts:350-384 | a state is reachable where a message throttled while routed has no live event left: the exception in `SomethingIsAlwaysLive` is real |
| `Parking.UncertainOutcomeIsStuck` | src/messages/message-workflow.service.ts:496-543 | a state is reachable where a submitting message with an uncertain outcome has no live event left |
| `Outcomes.SubmissionOutcome` | src/messages/messages.service.ts:746-930 | in every reachable state a submission is taken in if and only if its client keys are new and its price is not positive or within available + credit limit of the tenant's wallet; then exactly the sell price goes from available to reserved with one entry, the row has the submitted content, price, parts, route and cost = unit cost * parts, and one accepted event with that route is queued and delivered; otherwise nothing changes |
| `Outcomes.ResultOutcome` | src/messages/message-workflow.service.ts:460-656 | in every reachable state a result that meets the current row makes it provider_accepted exactly when accepted, leaves it submitting with one reconciliation exactly when uncertain and not accepted, with one retry exactly when neither and the error is given, listed by the policy and attempts are left, and fails it otherwise; with every column of the row, the money, the event and the next route's provider, configuration, rule and cost; on any other snapshot nothing changes |
| `Outcomes.RouteOutcome` | src/messages/message-workflow.service.ts:162-201 | in every reachable state routing a current accepted row gives it the route's provider, configuration, rule and unit cost * parts, clears its error and queues one dispatch event with that route and protocol, bulk for marketing; otherwise nothing changes |
| `Outcomes.ThrottleOutcome` | src/messages/message-workflow.service.ts:350-384 | a throttled current row keeps status and attempts, records the throttle, and one retry is queued |
| `Outcomes.BlockOutcome` | src/messages/message-workflow.service.ts:317-347 | a blocked current row fails with its error and time two versions on, a routed one with an attempt counted; exactly its price returns to available and nothing is queued |
| `Outcomes.BeginSubmitOutcome` | src/messages/message-workflow.service.ts:386-403 | before the provider call a current row becomes submitting with exactly one attempt more, nothing queued and no money moved |
| `Outcomes.ReportOutcome` | src/messages/message-workflow.service.ts:435-457 | the provider's answer is always queued, never dropped as a duplicate, with each of its fields and the version that counted the attempt |
| `Outcomes.RetryOutcome` | src/messages/message-workflow.service.ts:204-228 | a retry queues a dispatch with the version, provider and configuration that were read, bulk for marketing, unless that key was queued the same day, and changes nothing else |
| `Outcomes.LoadOutcome` | src/messages/message-workflow.service.ts:152-157 | a handler goes on exactly when its row has one of the statuses its event expects, with the whole current row as its snapshot |
| `Outcomes.ReceiptOutcome` | src/dlr/dlr.processor.service.ts:170-277 | in every reachable state a correlated receipt, by what it says and by the status its row had when it was read, delivers or fails the message and is marked with the tenant filled in, is closed as a duplicate, or is closed with its reason and a reconciliation queued once a day; it changes nothing when it would move a row that has moved on |
| `Outcomes.UnmatchedOutcome` | src/dlr/dlr.processor.service.ts:157-167 | a receipt no message answers to is closed and reported as message_not_found |
| `Outcomes.RepeatOutcome` | src/dlr/dlr.service.ts:87-94 | a repeated callback replaces payload and status, keeps provider, progress and known tenant, and fills in what was missing |
| `Outcomes.ReceiptsStayProcessed` | src/dlr/dlr.processor.service.ts:66-133 | in every run a processed receipt stays processed and a receipt keeps its provider and its known tenant |
| `Deliveries.StepKeeps` | src/messages/message-workflow.service.ts:152-656 | one step of anything (any handler stage, receipt, crash, redelivery) keeps the whole system invariant |
| `Deliveries.RetryDispatchStep` | src/messages/message-workflow.service.ts:204-228 | the retry handler, which checks no version, keeps the invariant: a used key it collides with belongs to a chain that is still alive |
| `Deliveries.FutureKeyIsFresh` | src/outbox/outbox.service.ts:36-37 | a key naming the version a guarded write is about to create has never been used, so its event is never dropped |
| `Deliveries.ReachableInv` | src/messages/message-workflow.service.ts:66-86 | the system invariant holds in every reachable state |
| `Protocol.RunIsReachable` | src/database/database.service.ts:33-46 | every sequence of atomic steps from wallets in order is a run, so the statements about reachable states are about all of them |
| `Settlement.GuardMeansCurrent` | src/messages/messages.service.ts:535-539 | a committed snapshot passes the update's WHERE clause exactly when it is the current row in every column |
| `Settlement.UnsettledHasNoKey` | src/messages/messages.service.ts:258-261 | while a message is `reserved` none of its settlement keys is in the ledger, so the duplicate check never hides a needed movement |
| `Settlement.ReservationIsCovered` | src/messages/messages.service.ts:289-302 | the wallet's reserved balance covers every unsettled message |
| `Settlement.SettlingWrite` | src/messages/message-workflow.service.ts:317-334 | the wallet movement beside a settling transition always succeeds, moves exactly the price and keeps the invariant |
| `Settlement.NewMessageHasNoReserve` | src/messages/messages.service.ts:886-892 | a new message's reserve key is unused |
| `Attempts.StepAttempts` | src/messages/message-workflow.service.ts:386-403 | one step keeps the potential: attempts plus future attempts stay within the bound, calls plus pending calls within the attempts |
| `Services.OutboxService.Enqueue` | src/outbox/outbox.service.ts:20-53 | inserts the event unless its key was inserted the same day, as `Store.Enqueue` says |
| `Services.MessagesService.GetMessageRow` | src/messages/messages.service.ts:465-506 | finds a row if and only if the id has one with the same submit date and tenant, and then that row |
| `Services.MessagesService.FindByClientKey` | src/messages/messages.service.ts:746-764 | finds a message of the same day and tenant with one of the client keys if and only if there is one |
| `Services.MessagesService.PatchMessage` | src/messages/messages.service.ts:508-576 | guarded update: new row and tables as specified, or a version conflict and nothing changed |
| `Services.MessagesService.TransitionMessage` | src/messages/messages.service.ts:578-663 | refuses an illegal transition before the guarded update; sets status, version, attempts, billing and first send, delivery and failure times |
| `Services.MessagesService.ApplyWalletLedger` | src/messages/messages.service.ts:246-384 | wallet and ledger after a reserve, debit or release, the two silent no-ops, and the four errors |
| `Services.MessagesService.Submit` | src/messages/messages.service.ts:745-930 | the submission transaction: nothing for a client key already taken, else row, reservation and accepted event, or nothing |
| `Services.MessageWorkflow.Route` | src/messages/message-workflow.service.ts:162-201 | routes the message and queues its dispatch, or rolls back |
| `Services.MessageWorkflow.Block` | src/messages/message-workflow.service.ts:317-348 | fails a blocked message from either status and releases its reservation under the fraud key, or rolls back; the schema's trigger, which always rolls it back, is in `Schema` |
| `Services.MessageWorkflow.Throttle` | src/messages/message-workflow.service.ts:350-384 | records the throttle and queues a retry, or rolls back |
| `Services.MessageWorkflow.BeginSubmit` | src/messages/message-workflow.service.ts:386-403 | counts the attempt before the provider is called and returns the version it wrote |
| `Services.MessageWorkflow.WriteDispatch` | src/messages/message-workflow.service.ts:302-403 | the dispatch handler's write for each fraud verdict |
| `Services.MessageWorkflow.Report` | src/messages/message-workflow.service.ts:435-457 | queues the outcome under the submitting version |
| `Services.MessageWorkflow.AcceptResult` | src/messages/message-workflow.service.ts:467-494 | provider acceptance and debit in one transaction |
| `Services.MessageWorkflow.ParkUncertain` | src/messages/message-workflow.service.ts:496-543 | records an uncertain outcome and queues only a reconciliation |
| `Services.MessageWorkflow.ScheduleRetry` | src/messages/message-workflow.service.ts:580-626 | reroutes column by column and queues a retry |
| `Services.MessageWorkflow.FailResult` | src/messages/message-workflow.service.ts:630-655 | final failure and release in one transaction |
| `Services.MessageWorkflow.WriteResult` | src/messages/message-workflow.service.ts:460-656 | the result handler's branches in their order |
| `Services.MessageWorkflow.QueueRetryDispatch` | src/messages/message-workflow.service.ts:211-227 | the retry handler's transaction: enqueues under the version that was read, with no guard |
| `Services.MessageWorkflow.HandleRetry` | src/messages/message-workflow.service.ts:204-228 | the whole retry handler run without interference: enqueues only while the row is submitting |
| `Services.DlrProcessor.MarkProcessed` | src/dlr/dlr.processor.service.ts:69-80 | marks a receipt processed with its reason |
| `Services.DlrProcessor.EnqueueReconciliation` | src/dlr/dlr.processor.service.ts:82-119 | queues the reconciliation and marks the receipt in one transaction |
| `Services.DlrProcessor.MarkMatched` | src/dlr/dlr.processor.service.ts:207-216 | marks a matched receipt, filling in the tenant |
| `Services.DlrProcessor.FailByReceipt` | src/dlr/dlr.processor.service.ts:237-276 | the failed-receipt transaction |
| `Services.DlrProcessor.ProcessCorrelated` | src/dlr/dlr.processor.service.ts:170-277 | every branch after correlation, with rollback |
| `Correlation.FallbackPicksExactlyTheClearWinner` | src/messages/messages.service.ts:1319-1338 | the fallback answers a row if and only if it scores at least 4 and strictly beats every other candidate of the whole table, not only of the five fetched |
| `Correlation.DecisionIgnoresRowOrder` | src/messages/messages.service.ts:1275-1305 | any two executions of the query decide alike, whatever the row order and tie breaks |
| `Correlation.EveryDatedCandidateScoresForTime` | src/messages/messages.service.ts:1261-1274 | with an event time every candidate scores at least 1 for time |
| `Correlation.AnswerWasSent` | src/messages/messages.service.ts:1206-1231 | an answer is a row of the table found by one of the two lookups |
| `Correlation.SoleMessage` | src/messages/messages.service.ts:1206-1338 | for a table of one message, the exact condition over its columns and the receipt's: same provider and no other tenant, and either the provider's message id or the phone number, a send within six hours of the event (or the last 24 hours without one) and body hash, campaign, route rule, or sender with an event time |
| `Correlation.SoleCandidate` | src/messages/messages.service.ts:1327-1338 | a sole candidate of any table is answered if and only if body hash, campaign or route rule agrees, or the sender agrees and the event time is given |
| `Correlation.HashBeatsOneOther` | src/messages/messages.service.ts:1241-1260 | of two candidates alike in sender and nearness, the body hash wins over the campaign alone and over the rule alone |
| `Correlation.CampaignAndRuleBeatHash` | src/messages/messages.service.ts:1246-1260 | campaign and rule together win over the hash |
| `Correlation.CampaignTiesWithRule` | src/messages/messages.service.ts:1251-1260 | campaign against rule decides nothing |
| `Correlation.HashBeatsSender` | src/messages/messages.service.ts:1241-1274 | the hash wins over the sender even with a nearer send, since every dated candidate scores for time |
| `Correlation.FarHashTiesWithNearCampaign` | src/messages/messages.service.ts:1246-1274 | a hash on a far send ties with a campaign, or a rule, on one within 15 minutes of the event, and nobody is answered |
| `Correlation.SenderBeatsNearness` | src/messages/messages.service.ts:1241-1274 | the sender wins over a nearer send, when it is evidence enough at all |
| `Correlation.CampaignAgainstSender` | src/messages/messages.service.ts:1241-1274 | campaign or rule wins over the sender, except against a sender's row that alone was sent within 15 minutes of the event |
| `Correlation.MoreEvidenceWins` | src/messages/messages.service.ts:1241-1274 | of two candidates one of which agrees in everything the other does, the one with more wins if it is evident; the same agreement is a tie |
| `Correlation.AnswerExists` | src/messages/messages.service.ts:1206-1338 | every table and receipt have an answer |
| `RateLimit.RateLimitService.ConsumeTokens` | src/redis/rate-limit.service.ts:62-96 | the configuration check and the script over the stored, expiring bucket |
| `RateLimit.RateLimitService.EnforceLimit` | src/redis/rate-limit.service.ts:98-116 | remaining tokens or a denial with the advertised seconds |
| `RateLimit.RateLimitService.EnforceDailyQuota` | src/redis/rate-limit.service.ts:118-138 | the same with a day as the period and one token a call |
| `RateLimit.StoredStaysInBounds` | src/redis/rate-limit.service.ts:26-43 | stored tokens stay within 0 and the capacity over any run in clock order |
| `RateLimit.WindowBound` | src/redis/rate-limit.service.ts:14-46 | tokens granted in any window of a run are at most capacity + refill * length / period |
| `RateLimit.DailyQuotaBound` | src/redis/rate-limit.service.ts:118-127 | one daily key grants at most limit + limit * elapsed / 24 h |
| `RateLimit.BoundHoldsIffClockIsOrdered` | src/redis/rate-limit.service.ts:26-43 | at given timestamps the window bound holds for whatever is requested if and only if the timestamps never step back |
| `RateLimit.BackwardStepBreaksTheBound` | src/redis/rate-limit.service.ts:26-43 | at any list of timestamps with a backward step there are requests that break the bound there |
| `RateLimit.RewindGrantsAgain` | src/redis/rate-limit.service.ts:26-43 | a clock that steps back and returns grants, within one millisecond, the capacity and once more whatever the bucket regains in the stretch |
| `RateLimit.LevelAdvances` | src/redis/rate-limit.service.ts:26-30 | refilling in two stretches is refilling in one, up to the cap |
| `RateLimit.ExpiredIsFull` | src/redis/rate-limit.service.ts:75-78 | a bucket untouched for its whole time to live would be full again |
| `RateLimit.ExpiryIsUnobservable` | src/redis/rate-limit.service.ts:43-44 | a run over a store that may drop the key at any moment from its deadline on gets the answers of a bucket that never expires |
| `RateLimit.DenialsAreUnobservable` | src/redis/rate-limit.service.ts:35-43 | deleting any denied calls from a run changes no answer to the calls kept |
| `RateLimit.RetryAfterIsExact` | src/redis/rate-limit.service.ts:38-41 | after a denial, waiting a whole number of milliseconds is enough if and only if it is at least the advertised wait, for requests within the capacity |
| `RateLimit.AdvertisedSecondsCover` | src/redis/rate-limit.service.ts:107-112 | the advertised seconds cover the wait and exceed it by less than a second, or are the minimum of one |
| `RateLimit.RefusedIffOverBudget` | src/redis/rate-limit.service.ts:14-46 | the limiter is exact: in a run on a fresh key with ordered timestamps a call is refused if and only if granting it would give some stretch of calls up to it more than the capacity and what is regained in that time |
| `CircuitBreaker.CircuitBreakerService.Current` | src/redis/circuit-breaker.service.ts:130-132 | the stored snapshot while it lives, else the default |
| `CircuitBreaker.CircuitBreakerService.SetJson` | src/redis/redis.service.ts:35-43 | stores with an expiry, or without one when the time to live is 0 |
| `CircuitBreaker.CircuitBreakerService.Set` | src/redis/circuit-breaker.service.ts:138-153 | the override of a provider's state, with the clock read for the probe time and again for the time to live; other providers unchanged |
| `CircuitBreaker.CircuitBreakerService.Fail` | src/redis/circuit-breaker.service.ts:155-172 | counting a failure, with the instants of the read, the probe time, the time to live and the write |
| `CircuitBreaker.CircuitBreakerService.Succeed` | src/redis/circuit-breaker.service.ts:174-187 | closing and dropping the probe marker |
| `CircuitBreaker.CircuitBreakerService.Allow` | src/redis/circuit-breaker.service.ts:189-223 | the decision and the keys it leaves, with the instants of both reads, the write and the probe marker |
| `CircuitBreaker.OpeningHolds` | src/redis/circuit-breaker.service.ts:55-66 | every write of `open` outlives its probe time: the rounded-up expiry is never early |
| `CircuitBreaker.HoldOff` | src/redis/circuit-breaker.service.ts:189-213 | from an open snapshot, any run of failures and questions whose reads come before the probe times in force lets nothing through until the latest probe time |
| `CircuitBreaker.OpenPeriodEnds` | src/redis/circuit-breaker.service.ts:189-223 | how an open period ends for a question whose reads fall at any instants: let through if the key is gone, refused before the probe time unless the key goes in between, and from then on half-open and let through exactly when no probe is held or that snapshot is gone as well |
| `CircuitBreaker.FailuresProbeOnlyInTheGap` | src/redis/circuit-breaker.service.ts:155-172 | a breaker opened by a failure turns half-open on a question from its probe time on if and only if the question reads before the key goes, which is openSeconds after the store wrote it (when the time to live is read within a second of the probe time); later it is closed and lets through |
| `CircuitBreaker.NoDelayNoProbe` | src/redis/circuit-breaker.service.ts:155-172 | if the write took no time, a question that reads store and clock at once never finds it due for a probe |
| `CircuitBreaker.DelayedOpeningProbes` | src/redis/circuit-breaker.service.ts:195-222 | whenever the write took any time under a second, a question at the probe time stores half-open and, when no probe is held, is granted one |
| `CircuitBreaker.OverridesProbeOnlyInTheGap` | src/redis/circuit-breaker.service.ts:138-150 | an override to open: half-open if and only if the question reads before the key goes, max(1, ttl) seconds after the store wrote it; later it is closed and lets through |
| `CircuitBreaker.ClosedStaysBelowThreshold` | src/redis/circuit-breaker.service.ts:155-170 | no run stores a closed snapshot with a failure count at the threshold |
| `CircuitBreaker.TripsAtThreshold` | src/redis/circuit-breaker.service.ts:155-170 | failures in close succession open the breaker at exactly the threshold, not one earlier |
| `CircuitBreaker.ProbesAreSpaced` | src/redis/circuit-breaker.service.ts:215-222 | without a success in between, granted probes are at least one probe period apart in any run |
| `CircuitBreaker.SuccessCloses` | src/redis/circuit-breaker.service.ts:174-187 | after a success every question that reads after the write finds the breaker closed with no failure counted and no probe outstanding, is let through and changes nothing, whatever was stored before |
| `CircuitBreaker.SuccessRecovers` | src/redis/circuit-breaker.service.ts:155-187 | from a success on, every question is let through until failureThreshold failures have come without another success |
| `CircuitBreaker.FailedProbe` | src/redis/circuit-breaker.service.ts:155-172 | a failure that meets the half-open snapshot of a question reopens the breaker for openSeconds if the threshold is reached, and otherwise leaves it half-open |
| `CircuitBreaker.OverrideTakesEffect` | src/redis/circuit-breaker.service.ts:138-153 | an override to closed lets everything through; one to half-open lets a probe at a time through until its key goes |
| `OutboxRelay.OutboxRelay.Claim` | src/outbox/outbox-relay.service.ts:51-91 | reclaims lapsed leases, selects the oldest due unlocked rows and leases exactly those |
| `OutboxRelay.OutboxRelay.Publish` | src/outbox/outbox-relay.service.ts:94-128 | one row published and recorded, or its failure recorded with back-off and the tenth attempt giving up |
| `OutboxRelay.OutboxRelay.PublishAll` | src/outbox/outbox-relay.service.ts:93-129 | every claimed row gets its own outcome, others untouched, and the broker gets the delivered payloads in order |
| `OutboxRelay.OutboxRelay.FlushBatch` | src/outbox/outbox-relay.service.ts:50-130 | a whole undisturbed flush |
| `OutboxRelay.SelectionIsComplete` | src/outbox/outbox-relay.service.ts:61-72 | a due unlocked row is passed over only when the batch is full of older rows |
| `OutboxRelay.DueRowsAreClaimed` | src/outbox/outbox-relay.service.ts:52-72 | a pending or abandoned row that is due and not locked is leased by the next claim unless the batch is full of older ones |
| `OutboxRelay.PublishedWasDelivered` | src/outbox/outbox-relay.service.ts:93-129 | in any run of any number of workers, late ones included: published implies delivered to the broker, the retry count is the number of recorded failures, given up implies at least ten |
| `OutboxRelay.NoRowIsLost` | src/outbox/outbox-relay.service.ts:50-130 | no run loses a row or alters a payload |
| `OutboxRelay.LeasesExclude` | src/outbox/outbox-relay.service.ts:78-88 | if no worker overruns its lease, no run puts a row in two hands |
| `OutboxRelay.ClaimsExcludeIffNoneOverrun` | src/outbox/outbox-relay.service.ts:52-88 | the condition is exact: from leases in order, every claim that could be made at a given time leaves each row in one hand if and only if no held lease is overrun by then |
| `OutboxRelay.PublishedIsSafeIffNotHeld` | src/outbox/outbox-relay.service.ts:93-129 | a published row is published after every possible next step if and only if no worker, late or not, still holds it |
| `OutboxRelay.ReleasedStaysPublished` | src/outbox/outbox-relay.service.ts:50-130 | once published and let go of, a row is published after any further run of any workers |
| `OutboxRelay.PunctualPublishIsFinal` | src/outbox/outbox-relay.service.ts:78-88 | in a run without an overrun lease a published row is held by nobody, and stays published whatever comes later |
| `OutboxRelay.OverrunUnpublishes` | src/outbox/outbox-relay.service.ts:112-124 | a worker that still holds a published row takes it back to pending, or to given up at the tenth failure |
| `OutboxRelay.OverrunIsReachable` | src/outbox/outbox-relay.service.ts:93-129 | a published row still in the hands of a late worker is reachable with two workers and one row |
| `OutboxRelay.ClaimEffect` | src/outbox/outbox-relay.service.ts:51-91 | a claim leases only due rows that were pending or lapsed and that nobody had locked, oldest first and at most the batch size, all of them when fewer; other rows change only by a lapsed lease taken back |
| `OutboxRelay.FailureBacksOff` | src/outbox/outbox-relay.service.ts:112-124 | in every run the n-th failure of a row makes it wait 5n seconds, at most 300, and gives it up from the tenth on; nothing else changes |
| `OutboxRelay.SuccessEffect` | src/outbox/outbox-relay.service.ts:94-110 | a send delivers the row once, and recording it changes only the status of that row |
| `Campaigns.CampaignsService.ScheduleCampaign` | src/campaigns/campaigns.service.ts:62-202 | the four refusals in their order, or campaign, schedule and first job |
| `Campaigns.CampaignsService.SetScheduleActive` | src/campaigns/campaigns.service.ts:564-585 | sets the flag of the tenant's schedule and nothing else |
| `Campaigns.CampaignsService.CancelCampaign` | src/campaigns/campaigns.service.ts:587-620 | cancels the tenant's campaign and deactivates exactly its schedules |
| `Campaigns.CampaignsService.MaterializeDueSchedules` | src/campaigns/campaigns.service.ts:622-713 | the batch as specified, or nothing when the cron library refuses one of its schedules |
| `Campaigns.BatchEffect` | src/campaigns/campaigns.service.ts:645-711 | a batch commits if and only if the cron library takes every recurring schedule in it; each selected schedule then has one more job, for its due time, and moves on once, others not at all |
| `Campaigns.StepOnSchedule` | src/campaigns/campaigns.service.ts:564-713 | all that any one transaction can do to a schedule and the jobs made for it |
| `Campaigns.TrailsOnlyGrow` | src/campaigns/campaigns.service.ts:680-690 | over any run, what a recurring schedule has run and runs next only grows, by the successor of its last entry |
| `Campaigns.ChainsListFirings` | src/campaigns/campaigns.service.ts:34-44 | a chain of successors lists every firing between its ends, in order, each once |
| `Campaigns.EveryOccurrenceOnce` | src/campaigns/campaigns.service.ts:622-713 | in any run, pauses and outages included, the jobs made for a recurring schedule are for exactly the firings from its first run up to its next, in order, one job each |
| `Campaigns.FirstRunMayPrecedeStart` | src/campaigns/campaigns.service.ts:46-60 | the first run precedes the requested start if and only if the cron fires in the second before it; a start the cron fires at is never skipped past |
| `Campaigns.OneTimeRunsOnce` | src/campaigns/campaigns.service.ts:680-690 | a schedule without recurrence runs at most once, for the time it was set for, however often reactivated, while the clocks stay within a century of each other |
| `Campaigns.InactiveStaysQuiet` | src/campaigns/campaigns.service.ts:635-641 | an inactive schedule nobody reactivates makes no job and keeps its next run |
| `Campaigns.CancelSilences` | src/campaigns/campaigns.service.ts:587-608 | no job is made for a cancelled campaign's schedule unless it is reactivated |
| `Campaigns.ReactivatedAfterCancelRuns` | src/campaigns/campaigns.service.ts:564-573 | reactivated and due, any schedule of any cancelled campaign makes a job, and the campaign is still cancelled: with `CancelSilences`, jobs are made again exactly when someone reactivates the schedule |
| `Campaigns.BatchPaysOff` | src/campaigns/campaigns.service.ts:645-711 | at a fixed clock a batch lowers the number of runs owed by exactly its size |
| `Campaigns.OwedMeansDue` | src/campaigns/campaigns.service.ts:635-641 | nothing is owed if and only if nothing is due |
| `Campaigns.CatchesUp` | src/campaigns/campaigns.service.ts:622-713 | at a fixed clock, undisturbed ticks shrink the backlog, and as many ticks as owed runs leave nothing due |
| `Campaigns.BatchJobs` | src/campaigns/campaigns.service.ts:645-678 | a committed batch adds one job for each selected schedule, in order, with that schedule's tenant, campaign and shard count, queued; source and total are the size of the group when a group is given, else the valid rows of the upload when one is given, else api and 0 |
| `Campaigns.JobsNameTheirSchedule` | src/campaigns/campaigns.service.ts:160-184 | in every run each job, first or later, has the tenant, campaign and shard count of the schedule it was made for |
| `Campaigns.TickEffect` | src/campaigns/campaigns.service.ts:622-699 | a tick makes at most 25 jobs, only for active due schedules nobody has locked and for all of them when fewer; each moves to its next firing, or a century on from the clock |
| `Campaigns.CreateEffect` | src/campaigns/campaigns.service.ts:62-202 | a request is refused for the first of four reasons that applies and otherwise stored column by column, with a new campaign unless one is named and one pending job |
| `Campaigns.SetActiveEffect` | src/campaigns/campaigns.service.ts:564-585 | only the flag of the tenant's own schedule changes |
| `Campaigns.CancelEffect` | src/campaigns/campaigns.service.ts:587-620 | cancelling marks the tenant's own campaign and pauses exactly its schedules; any other call changes nothing |
| `Csv.ExportIsInvertible` | control-plane/lib/csv.ts:3-18 | a reader following section 2 of RFC 4180 with LF recovers the headers and cell texts if and only if the export has a column |
| `Csv.QuotedOnlyWhenNeeded` | control-plane/lib/csv.ts:3-9 | a cell is quoted only if it holds a quote, a comma or a line feed, and grows by exactly its quotes |
| `Csv.DistinctTablesPrintDifferently` | control-plane/lib/csv.ts:16-18 | two exports with columns are the same text if and only if they show the same table |
| `Csv.EndsInLineBreak` | control-plane/lib/csv.ts:16-18 | the text ends in a line break, which a reader may take for the end of the last record, if and only if the last row is one empty cell |
| `Csv.ReadCell` | control-plane/lib/csv.ts:3-9 | an escaped cell followed by a separator reads back as the cell, quoted or not |
| `Csv.ReadLine` | control-plane/lib/csv.ts:16-17 | a printed line reads back as its cells |
| `Csv.ReadLines` | control-plane/lib/csv.ts:18 | printed lines read back as their records |
| `Templates.GreedyMatchIsTheMatch` | src/templates/templates.service.ts:23 | greedy scanning finds a placeholder at a position if and only if the pattern can be divided over the text there, and finds the only one |
| `Templates.ReadingIsUnique` | src/templates/templates.service.ts:37 | a body has exactly one reading into literals without matches and placeholders, and the leftmost scan finds it |
| `Templates.MergeFieldsAreThePlaceholders` | src/templates/templates.service.ts:22-25 | the reading's pieces are the body, and the merge fields are the one list of its placeholder names without repetition in first-occurrence order |
| `Templates.FirstOccurrencesAreUnique` | src/templates/templates.service.ts:24 | only one list has that property |
| `Templates.FilterKeepsAll` | src/templates/templates.service.ts:24 | the filter on empty names removes nothing |
| `Templates.RenderFillsEveryPlaceholder` | src/templates/templates.service.ts:27-41 | rendering succeeds if and only if every placeholder has a value, and is then literals and values in order in one pass; otherwise the error lists the placeholders without one, once each, by first occurrence |
| `Templates.OnlyMergeFieldsMatter` | src/templates/templates.service.ts:35-41 | a rendering depends on the extracted fields and on nothing else in the merge data |
| `Contacts.NormalizedIsFixed` | src/contacts/contacts.service.ts:25-37 | a normalised number starts with a plus and normalises to itself |
| `Contacts.SpellingsAgree` | src/contacts/contacts.service.ts:25-37 | the three spellings of a local number normalise alike |
| `Contacts.NormalizedIff` | src/contacts/contacts.service.ts:25-37 | a number is taken if and only if its digits and pluses start with +, 251 or 0, and what it then becomes |
| `Contacts.ParseLines` | src/contacts/contacts.service.ts:64-113 | every data line that is not blank is one accepted row or one error with its true reason, row numbers increase, accepted numbers are distinct, a duplicate repeats an earlier accepted number, and the lists together count the data lines |
| `Contacts.ParseCsvContent` | src/contacts/contacts.service.ts:39-114 | the refusals in their order, or such an account of the content's lines |
| `Contacts.AccountIsUnique` | src/contacts/contacts.service.ts:68-111 | there is only one such account: the accepted rows and errors are determined by the lines |
| `Contacts.SplitInverts` | src/contacts/contacts.service.ts:53-74 | joining the cells gives the line back, and no cell holds the delimiter |
| `Contacts.SplitLinesInverts` | src/contacts/contacts.service.ts:48 | joining the lines gives the content back up to its line ends, and no line holds a line feed |
| `Contacts.TrimIs` | src/contacts/contacts.service.ts:43 | trimming removes the white space at both ends and nothing else |
| `Contacts.HeaderIsNeverMissing` | src/contacts/contacts.service.ts:53-56 | content that is not blank always has a header, so the error for a missing one is never raised |
| `Contacts.RawRecordHolds` | src/contacts/contacts.service.ts:75 | the raw record holds the cell of the last column with a header |
| `Contacts.MetadataHolds` | src/contacts/contacts.service.ts:89-96 | the metadata has the headers of all columns but the number's and the name's, each with the cell of the first column so headed |
| `Contacts.RefusedOrLaidOut` | src/contacts/contacts.service.ts:43-62 | content is refused if all white space, else if it has more than 100000 line feeds, else if no header is a phone column; otherwise the first phone and the first name column are used |
| `Contacts.LineReads` | src/contacts/contacts.service.ts:70-105 | what a line gives: blank if all white space, the number and the name of their columns, each other header's first column as metadata and each header's last column in the raw record |
| `Contacts.ImportRecords` | src/contacts/contacts.service.ts:459-550 | one upload with the counts of rows, of those that returned and of errors; one error row for each error; each returned row merged into its contact, given names and values replacing and absent ones staying, and into the group; nothing else changes |
| `Contacts.ContactsService.ImportInlineCsv` | src/contacts/contacts.service.ts:444-562 | a refused import changes nothing; another one records contacts, memberships, errors and counts of the parsed account |
| `Contacts.ContactsService.Store` | src/contacts/contacts.service.ts:459-561 | the whole state after the import transaction |
| `Contacts.ContactsService.UpsertRows` | src/contacts/contacts.service.ts:504-538 | contacts and memberships after the loop, and the rows that returned |
| `Contacts.EachContactIsWrittenOnce` | src/contacts/contacts.service.ts:506-521 | each accepted contact is written once, from its own row, and no other contact is touched |
| `Contacts.TotalsAddUp` | src/contacts/contacts.service.ts:540-550 | the stored total is valid plus invalid if and only if every upsert returned its row |

## Left out

- Postgres, Redis, Kafka, HTTP and SMPP clients: only atomic transactions, guarded updates, expiring keys, set-if-absent and at-least-once delivery are modelled.
- Number representation: money is mathematical integers, tokens are reals; the rounding of tokens when the script stores them as text is not modelled.
- Message ids: the model numbers messages consecutively; gaps left by rolled back inserts are not modelled.
- Key texts: dedupe and ledger keys are constructors, one per text format; that the formats are distinct as texts is not proved.
- Concurrent submissions with one client key: a submission is one atomic step, so the lookup and the insert do not interleave with another's; the unique index that would reject the second insert is not part of this model.
- The schema's unique indexes and constraints other than the trigger on message updates.
- Guarantees.HandlersCommitIffSnapshotIsCurrent: is about the program without the schema's trigger; `Schema.CommitsUnderTriggerIff` is the statement with it.
- Services.MessageWorkflow.Block: carries out the program's statements; the trigger that rejects the second of its updates is in `Schema`.
- The loop that builds the SQL text of an update: the columns to set are a record of optional values.
- Retry delays and `next_attempt_at` in the protocol: an event may be delivered at any time after it is queued; the relay's publishing is modelled separately, and giving up after ten failures is transport loss the protocol does not assume.
- Phone number, sender and body inside events: copied unchanged by every handler, so not repeated in the model.
- Message logs, audit rows, metrics and error messages: written beside the modelled state and never read by it.
- Route selection, retry policy lookup, fraud scoring, quotas and opt-out checks before submission: inputs to the workflow.
- Receipt payload extraction: the fields of a receipt are given; the event that announces a receipt is not modelled, so a stored receipt may be opened at any time.
- Services.MessageWorkflow.HandleRetry: reads and enqueues without interference in between; the interleaved form is the step `QueueRetryDispatch` of the protocol.
- Services.DlrProcessor.ProcessCorrelated: starts from a correlated row; the correlation query is the relation `Correlation.Answer`.
- Circuit breaker warm start from the database, and two calls on one provider interleaving their reads and writes: the instants within a call differ, but no other call on the provider falls between them.
- Redis latency and the exact instant of expiry: a key is gone from its deadline on; `ExpiryIsUnobservable` also covers later eviction.
- OutboxRelay.OutboxRelay.FlushBatch: is the undisturbed flush; several workers are the state machine in the same file.
- Cron parsing and time zones: library code, taken as a function to the next firing.
- Names, template references and sender ids of campaigns, and job processing after a job is queued.
- Templates.RenderFillsEveryPlaceholder: a lookup in the merge data is a function from field to text, which stands for inherited properties too; conversion of numbers to text is not modelled.
- Creating, updating and versioning templates; creating and editing contacts and groups one by one: single statements.
- The download at the end of the CSV export; carriage returns in cells are kept but not quoted, so a reader that ends records at CRLF is outside `ExportIsInvertible`.
- Characters outside the basic plane: a text is a sequence of characters, where the program's strings are sequences of UTF-16 units.
- Contacts.ParseLines: works on lines already split into cells; the splitting is the functions it is given the results of.
- SMPP sessions, saved views, authentication, dashboards, search, notifications, analytics, the rest of the control plane: plumbing around the modelled core.
