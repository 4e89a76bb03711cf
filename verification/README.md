# Verification of the loyalty and payout system

The system turns purchases into achievements, achievements into badges, and badges into cashback. A purchase and its
event are committed together; an outbox publishes the event at least once; a consumer counts it, unlocks achievements by
a fixpoint of recursive rules, unlocks badges, and commits its own events; a second consumer creates a cashback
transaction, and a job queue with two retry tiers pays it. This project models that logic in Dafny and proves what holds
over every input, every interleaving and every run. Check it with `dafny verify dfyconfig.toml`.

| file | models |
|---|---|
| `Json`, `Rules`, `RuleMeaning` | the rule engine, the rule-shape validator and the reference collector over arbitrary JSON, and what a rule means apart from them |
| `Closure`, `Loyalty`, `LoyaltyRuns`, `BadgeProgress` | the unlock loop as a least fixpoint, the purchase handler, whole delivery histories, badge progress |
| `Outbox`, `OutboxSafety`, `OutboxAttempts`, `OutboxService`, `OutboxLock` | the outbox as an interleaved protocol, its safety, its attempt counters, the service that runs it, the scan lock |
| `Broker`, `BrokerSafety`, `BrokerAttempts`, `Reconnect` | the life of a message, how often it is handled, the reconnect machine |
| `Purchase`, `PurchaseSafety`, `PurchaseService` | idempotent purchase creation: protocol, its safety, the service that runs it |
| `Ordering`, `Admin`, `AdminEdits`, `AdminService` | insert-at-position ordering, references, what each operation accepts and stores, the catalog |
| `Failures`, `Cashback`, `CashbackSafety`, `CashbackService`, `CashbackExact` | failure classification, the payment protocol, its safety, the service that runs it, the exact condition for paying once |
| `CashbackRows`, `CashbackRetries`, `RetryTokens`, `RetryBudget`, `RetryLimits` | what rows show, the budget of provider calls, where it ends, the slow tier's delays |
| `CashbackLineage`, `Pipeline`, `EndToEnd`, `Payout` | where cashback rows come from, the composition of all parts, what every run of it keeps, and a run that pays |
| `Collections` | sums over maps, repeat-free sequences |

Protocols are state machines: a `State`, a `Step` per uninterrupted stretch of code or environment event, `Enabled`,
`Apply`, and runs as step sequences. Service classes hold the tables as fields; their methods are proved to perform runs
of the protocol.

## What was found

- A handler that outlives its channel settles by delivery tag on the current channel (`safeAck` and `safeNack` take
  whatever channel is set). Tags restart with the channel, so it can acknowledge another unfinished message and lose it:
  `BrokerSafety.LateAckLosesAMessage`; the exact condition is `BrokerSafety.NeverLostIffOwnChannel`.
- A `bindAndConsume` that rejects during a reconnect while the channel stays up leaves the channel in use with
  subscriptions missing and nothing scheduled: `Reconnect.HalfSubscribed`, `Reconnect.AlwaysConsumingIff`.
- Payment is at most once exactly for a synchronous provider without webhooks and without faults after the transfer:
  `CashbackExact.AtMostOnceIff`. A failure webhook turns even a SUCCESSFUL row into FAILED.
- Two scanners can hold the same lock value (`pid:time`), and then a late release removes the other's lock:
  `OutboxLock.ReleaseSparesOthersIff`. Row safety (`OutboxSafety.RowSafety`) does not use the lock.
- Outbox attempts go down exactly through claims that win with an outdated snapshot: `OutboxAttempts.HarmlessIffNotLate`.
- Badge progress overstates the distance exactly when the required list repeats an id: `BadgeProgress.ExactIffNoRepeats`.
- An empty idempotency key is not replayed; the second request with it fails: `PurchaseSafety.EmptyKeySucceedsOnce`.
- Paystack error codes are looked up in a plain object, so `constructor` and `__proto__` are found and yield a failure
  without code or flag: `Failures.FailuresAreConsistentIff`, `CashbackRetries.AlwaysCodedIff`.
- A crash between the catch block of an attempt and the queue's bookkeeping costs a call no attempt pays for:
  `RetryLimits.BudgetIff`.
- The documentation speaks of 5 attempts per message; the handler runs up to 6 times (5 retries), and the longest delay
  is 16 s, so the 30 s cap is never in play: `BrokerAttempts.RunsSixTimes`, `BrokerAttempts.CapNeverReached`.
- The API document promises retry count 0 and no next retry on a SUCCESSFUL row; the code keeps the count, and a success
  webhook keeps the next retry: `CashbackRetries.DocumentedIff`, `CashbackRetries.CountDecidesIff`.

## Assumptions

- `handlePurchaseCompleted` and `handleBadgeUnlocked` are one atomic step each; their duplicate check is outside the
  transaction, so truly concurrent runs for one event or user are not covered. The badge handler may still roll back
  after its job was queued.
- A provider call that throws made no transfer; a lost reply is an accepted transfer followed by a fault.
- A failed save did not commit, and a save leaves out columns that are undefined. Ids and references drawn are fresh. A
  message passed to `sendToQueue` is durable.
- Amounts are unbounded integers, non-negative as validated at the boundary.
- Regular expressions on failure messages are arbitrary predicates; the coercion JavaScript applies to non-numbers in a
  comparison is an arbitrary function.
- Loyalty configs may change between events in `EndToEnd.NeverOverpaid` and `EndToEnd.ExactlyOnceEffect`; batch results
  assume them fixed.
- The publisher's call may reach the broker without a confirm; the queue may lose its connection at any time.

## Model

| member | source | states |
|---|---|---|
| `EndToEnd.NeverOverpaid` | apps/cashback-service/src/cashback/cashback.service.ts:90-141 | Over every run of the composed system (purchases, both outboxes, both queues with duplicates, reordering, losses and stale settles, handler failures, jobs, retries, scans; synchronous provider): the money sent to a user is at most the sum of the rewards in that user's BadgeUnlocked events, there is at most one such event per user and badge id, and every payment settles one event for its payee, badge and amount |
| `EndToEnd.EveryPayoutIsEarned` | apps/loyalty-service/src/loyalty/loyalty.service.ts:211-267 | With fixed configs, the badge behind every payment is met by the least closure of the rules, from nothing, at the exact counters of the payee's processed purchases |
| `EndToEnd.ExactlyOnceEffect` | apps/loyalty-service/src/loyalty/loyalty.service.ts:57-89 | In every reachable state of the composed system a user's purchaseCount and totalSpendKobo are the count and the sum of that user's purchases whose event id is processed, and purchases and events correspond one to one |
| `EndToEnd.StepPreservesInv` | apps/loyalty-service/src/loyalty/loyalty.service.ts:167-176 | Every step of the composed system keeps: outbox rows are exactly the committed events, queues hold only sent events, counters exact, announcements single, cashback rows traced to announced badges |
| `EndToEnd.RunKeepsBatch` | apps/loyalty-service/src/loyalty/loyalty.service.ts:98-165 | Along every run of the composed system with fixed configs, unlocks stay batch-equal for every user |
| `Payout.BoundIsAttained` | apps/cashback-service/src/cashback/cashback.service.ts:323-345 | For every user, amount, reward and configuration a run leads from one purchase, through an achievement for the first purchase and a badge that requires it, both outboxes and both queues, to one payout of exactly the rewards announced |
| `CashbackLineage.CashbackCommitted` | apps/cashback-service/src/cashback/cashback.service.ts:90-141 | Handling a badge event, new or repeated, keeps every cashback row traceable to one processed event with its user, badge and amount |
| `CashbackLineage.StepLineage` | apps/cashback-service/src/cashback/cashback.service.ts:292-429 | No worker, retry or scan step adds a row or changes whose it is or how much it pays |
| `LoyaltyRuns.IncrementalEqualsBatch` | apps/loyalty-service/src/loyalty/loyalty.service.ts:57-177 | After any deliveries, repeats and any order allowed: counters are those of the distinct events, unlocked achievements are the least closure from nothing at those counters, unlocked badges are exactly those it meets |
| `LoyaltyRuns.OrderAndDuplicatesDoNotMatter` | apps/loyalty-service/src/loyalty/loyalty.service.ts:57-63 | Two services that saw the same events in different orders and multiplicities agree on counters, achievements and badges of every user |
| `LoyaltyRuns.HandledPreservesInv` | apps/loyalty-service/src/loyalty/loyalty.service.ts:66-174 | One committed handling keeps exact counters, batch equality and one announcement per user and badge |
| `Loyalty.LoyaltyService.HandlePurchaseCompleted` | apps/loyalty-service/src/loyalty/loyalty.service.ts:57-177 | A repeated event changes nothing; a new one counts once, extends achievements to the least closure, adds exactly the badges now met, and writes one outbox row per new achievement and per new badge and no other |
| `Loyalty.LoyaltyService.RecordAchievements` | apps/loyalty-service/src/loyalty/loyalty.service.ts:94-163 | Achievement rows stay free of repeats, are appended for this user only, reach the least closure, and the announcements are exactly those of the new ids, once each |
| `Loyalty.LoyaltyService.UnlockBadges` | apps/loyalty-service/src/loyalty/loyalty.service.ts:211-267 | Badge rows of the user become old ones plus all badges met, with one announcement for each new one |
| `Loyalty.EarnBadges` | apps/loyalty-service/src/loyalty/loyalty.service.ts:227-264 | The badge loop: rows and announcements for exactly the badges met and not yet held, in one pass |
| `Loyalty.RowCountIsCardinality` | apps/loyalty-service/src/loyalty/loyalty.service.ts:216-217 | Counting rows counts distinct achievements, which is why the count test of a badge is sound |
| `Loyalty.NewsMeans` | apps/loyalty-service/src/loyalty/loyalty.service.ts:138-262 | A config is announced exactly when this event unlocked it, under its own id, name and reward and to the buyer |
| `Closure.UnlockAchievements` | apps/loyalty-service/src/loyalty/loyalty.service.ts:98-163 | The do/while ends within (configs + 1) passes in the least set that contains the existing unlocks and is closed under the rules, for every config order; each new id is recorded exactly once |
| `Closure.UnlockPass` | apps/loyalty-service/src/loyalty/loyalty.service.ts:104-162 | One pass stays below every closed set, skips only ids already unlocked or truly broken, and if it unlocks nothing the set is closed |
| `Closure.LeastClosureOrderFree` | apps/loyalty-service/src/loyalty/loyalty.service.ts:90-93 | Any two config lists with the same members have the same least closure |
| `Closure.FaultIsolation` | apps/loyalty-service/src/loyalty/loyalty.service.ts:109-126 | The least closure with faulty configs present equals the least closure with them removed |
| `Closure.IncrementalIsBatch` | apps/loyalty-service/src/loyalty/loyalty.service.ts:98-163 | Catching up from the closure at smaller counters gives the closure from the start at larger counters |
| `Rules.EveryTrueIffAllHold` | apps/loyalty-service/src/rules/rule-engine.service.ts:23-25 | Short-circuiting every over child rules is true exactly when every child evaluates to true |
| `RuleMeaning.EvaluateMeans` | apps/loyalty-service/src/rules/rule-engine.service.ts:6-36 | Whatever the coercion, JSON written for a rule evaluates to whether that rule is met: COUNT by the purchases, SUM by the spend, a set by the number of unlocked positions, a combination by all its children at any depth |
| `RuleMeaning.ThresholdMeans` | apps/loyalty-service/src/rules/rule-engine.service.ts:9-12 | COUNT reaches its number exactly when purchaseCount is at least it, SUM exactly when totalSpendKobo is; Infinity and NaN are never reached, -Infinity always |
| `RuleMeaning.SetMeans` | apps/loyalty-service/src/rules/rule-engine.service.ts:15-22 | An ACHIEVEMENT_SET holds exactly when the number of unlocked positions, repeats included, is at least minRequired, or the length of the list when that is absent or null |
| `RuleMeaning.UnknownMeans` | apps/loyalty-service/src/rules/rule-engine.service.ts:26-36 | A threshold with another operator is false and any other type throws |
| `RuleMeaning.ValidIffWritten` | apps/loyalty-service/src/rules/rule-shape.validator.ts:4-54 | The validator accepts a JSON value if and only if it is written for a well-formed rule: known type, field and operator, non-negative finite threshold, non-empty string ids, finite or absent bound, non-empty children |
| `RuleMeaning.CollectsExactly` | apps/loyalty-service/src/admin/admin-config.service.ts:302-313 | The ids collected from a written rule are exactly those it asks about at any depth |
| `RuleMeaning.CollectMeans` | apps/loyalty-service/src/admin/admin-config.service.ts:305-313 | Of any JSON value: the list of a set, what the children of a combination collect, nothing for other types; throws exactly for null, a list that is no array, or a child that throws |
| `Rules.HoldsMonotone` | apps/loyalty-service/src/rules/rule-engine.service.ts:6-36 | A rule that holds keeps holding when count, spend and unlocked set grow, repeats and any minRequired included |
| `Rules.ThrownIsFaulty` | apps/loyalty-service/src/rules/rule-engine.service.ts:6-28 | A throw in some context means a faulty part inside the rule |
| `Rules.FaultyNeverHolds` | apps/loyalty-service/src/rules/rule-engine.service.ts:15-27 | A rule with a faulty part anywhere inside never evaluates to true, in any context, however short-circuiting delays the throw |
| `Rules.ValidNeverThrows` | apps/loyalty-service/src/rules/rule-shape.validator.ts:4-54 | Every JSON value the validator accepts is evaluated without throwing in every context |
| `Rules.ValidCollects` | apps/loyalty-service/src/admin/admin-config.service.ts:305-313 | Every accepted rule is collected without throwing and every collected reference is a string |
| `Rules.CollectedIdsAreAllDependencies` | apps/loyalty-service/src/admin/admin-config.service.ts:302-313 | The collected ids are all a rule depends on: contexts that agree on them evaluate alike |
| `BadgeProgress.RemainingIsDistance` | apps/loyalty-service/src/loyalty/loyalty.service.ts:287-298 | With a repeat-free required list, remaining is the least number of further achievements that meets the badge: a lower bound and a witness |
| `BadgeProgress.ExactIffNoRepeats` | apps/loyalty-service/src/loyalty/loyalty.service.ts:288-297 | The reported figure is the exact distance for every user if and only if the required list has no repeats |
| `BadgeProgress.RemainingZeroIffMet` | apps/loyalty-service/src/loyalty/loyalty.service.ts:301-311 | Remaining is 0 exactly when the requirement holds, repeats included |
| `BadgeProgress.NextBadgeIsAhead` | apps/loyalty-service/src/loyalty/loyalty.service.ts:211-231 | After any processed purchase under unchanged config, a reported next badge has remaining > 0 |
| `BadgeProgress.NextBadgeIsFirst` | apps/loyalty-service/src/loyalty/loyalty.service.ts:287-287 | The next badge is the first one in order that is not held |
| `OutboxSafety.RowSafety` | packages/outbox-sdk/src/outbox.service.ts:22-90 | For any number of publishers with stale snapshots, failed saves and crashes, without the lock: one owner at most and it owns a PUBLISHING row, PUBLISHED implies a confirm, confirms <= 1 + failed PUBLISHED-saves, FAILED exactly when attempts = maxAttempts, otherwise attempts < maxAttempts |
| `OutboxSafety.StepPreservesInv` | packages/outbox-sdk/src/outbox.service.ts:63-90 | Every read, claim, confirm, failure, save, failed save and crash keeps the ownership and counting invariant |
| `OutboxSafety.TerminalStaysTerminal` | packages/outbox-sdk/src/outbox.service.ts:74-90 | A PUBLISHED or FAILED row, and its history, never changes again in any continuation |
| `OutboxSafety.FailedSaveMeans` | packages/outbox-sdk/src/outbox.service.ts:74-90 | A failed save changes no row; after a confirm it counts as a failed attempt, in the catch block it ends the publisher with the row still claimed |
| `OutboxAttempts.HarmlessIffNotLate` | packages/outbox-sdk/src/outbox.service.ts:51-59 | In any state a run without late claims can keep: what follows a claim can lower a row's attempts if and only if the claim wins with a snapshot whose count is below the row's |
| `OutboxAttempts.AttemptsNeverFall` | packages/outbox-sdk/src/outbox.service.ts:63-90 | Over every run without such late claims no row's attempts ever go down, whoever publishes, fails or dies |
| `OutboxAttempts.LateClaimLowers` | packages/outbox-sdk/src/outbox.service.ts:74-80 | After a late claim a confirm and a save of the same publisher lower the count |
| `OutboxAttempts.AttemptsAreNotMonotone` | packages/outbox-sdk/src/outbox.service.ts:83-87 | Such claims are reachable: a run in which a stale snapshot lowers a row's attempts from 2 to 1 |
| `OutboxService.Service.PublishById` | packages/outbox-sdk/src/outbox.service.ts:22-36 | Publishes exactly when the row is PENDING, with the status and attempts the outcome calls for; true exactly on success |
| `OutboxService.Service.PublishMany` | packages/outbox-sdk/src/outbox.service.ts:38-42 | Publishes the ids in order, each as publishById would |
| `OutboxService.Service.PublishPendingBatch` | packages/outbox-sdk/src/outbox.service.ts:44-61 | One tick: it makes min(batchSize, number PENDING) broker calls, in creation order; the PENDING row with fewer than batchSize older PENDING rows is called once and takes the status and attempts the answer calls for, every other row and its number of calls stay; the tick is the specification the drain result uses |
| `OutboxService.TickMeans` | packages/outbox-sdk/src/outbox.service.ts:44-61 | The same of the specification of a tick, row by row, for every table, batch size and answer |
| `OutboxService.Service.ClaimForPublishing` | packages/outbox-sdk/src/outbox.service.ts:63-72 | The compare-and-set succeeds exactly on a PENDING row and changes nothing else |
| `OutboxService.Service.PublishRecord` | packages/outbox-sdk/src/outbox.service.ts:74-90 | Counts the broker call and writes back the snapshot as PUBLISHED, PENDING or FAILED |
| `OutboxService.PublishAllIsRun` | packages/outbox-sdk/src/outbox.service.ts:38-61 | Serial calls of the service are runs of the interleaved protocol |
| `OutboxService.TickWorks` | packages/outbox-sdk/src/outbox.service.ts:44-90 | A tick over a table with PENDING rows strictly lowers the sum of (maxAttempts - attempts) over them; otherwise it changes nothing |
| `OutboxService.OutboxDrains` | packages/outbox-sdk/src/outbox.service.ts:44-90 | rows * maxAttempts serial ticks leave nothing PENDING whatever the broker answers, and no row sees more than maxAttempts broker calls |
| `OutboxLock.OneScanIff` | packages/outbox-sdk/src/scheduled-outbox.publisher.ts:32-83 | Scans exclude each other in every run if and only if no lock expires under a scan that still holds it; locks of dead pods may always expire |
| `OutboxLock.ReleaseSparesOthersIff` | packages/outbox-sdk/src/scheduled-outbox.publisher.ts:85-98 | Compare-and-delete never removes a lock another pod took after an expiry if and only if lock values are distinct or no lock expires under its holder |
| `OutboxLock.StolenRelease` | packages/outbox-sdk/src/scheduled-outbox.publisher.ts:38-38 | A run in which two pods that run at the same time draw the same pid:time value, the first lock expires, and the late scan releases the other's lock |
| `OutboxLock.AcquireMeans` | packages/outbox-sdk/src/scheduled-outbox.publisher.ts:38-44 | A free lock is taken and the scan goes on; a taken one is left alone and the tick is skipped |
| `BrokerSafety.CalmConservation` | packages/broker-sdk/src/broker.service.ts:118-188 | Without connection loss every published message is finished or stored in exactly one place, never both; a stored header equals the failed runs (<= 5), the handler runs at most 6 times, the delay after k retries is 1000 * (2^k - 1) <= 31000 |
| `BrokerAttempts.SixthRunIffFiveRetries` | packages/broker-sdk/src/broker.service.ts:144-154 | Without connection loss, the handler run that ends now is its message's sixth if and only if it was delivered with header 5, and none is later |
| `BrokerAttempts.RunsSixTimes` | packages/broker-sdk/src/broker.service.ts:148-154 | A run in which a message's handler runs six times, after delays of 31000 ms in all, before it is dead-lettered |
| `BrokerAttempts.CapNeverReached` | packages/broker-sdk/src/broker.service.ts:156-156 | Every retry delay is exactly 1000 * 2^k, at most 16000, so the 30 s cap is never in play |
| `BrokerSafety.NeverLostIffOwnChannel` | packages/broker-sdk/src/broker.service.ts:195-210 | With connection loss, an unfinished message keeps a copy in every run if and only if a settle is confined to the channel of its delivery; the code does not confine it |
| `BrokerSafety.LateAckLosesAMessage` | packages/broker-sdk/src/broker.service.ts:195-202 | A run of the code in which a handler that outlived its channel acknowledges, by a reused tag, the only copy of another unfinished message |
| `BrokerSafety.RunPreservesInv` | packages/broker-sdk/src/broker.service.ts:118-188 | In every run whose settles go out on their own channel (or cannot be sent), no unfinished message loses its last copy |
| `BrokerSafety.SettlePreserves` | packages/broker-sdk/src/broker.service.ts:195-210 | A settle on its own channel removes or dead-letters exactly the copy its handler was given |
| `BrokerSafety.KnownOnlyKept` | packages/broker-sdk/src/broker.service.ts:118-188 | Every step, stale settles included, leaves only published messages in queues and handlers |
| `BrokerSafety.FailMeans` | packages/broker-sdk/src/broker.service.ts:140-172 | After a rejected run the delivered copy is dead-lettered when its header is 5 or more; otherwise it is replaced by one retry copy of the same message with the header one higher |
| `BrokerSafety.FailWithoutChannel` | packages/broker-sdk/src/broker.service.ts:174-210 | With no channel set neither a retry copy nor a settle goes out, and every queue stays as it is |
| `Reconnect.ReconnectSafety` | packages/broker-sdk/src/broker.service.ts:212-281 | In every interleaving of error and close events, timers and partial setups: a missing channel outside shutdown means exactly one of a pending timer and an attempt in flight, never both, and the delays since the last full setup are 1000, then doubled each time up to 30000 |
| `Reconnect.NothingStartsAfterShutdown` | packages/broker-sdk/src/broker.service.ts:38-45 | After shutdown no attempt starts, no timer is set and no delay is scheduled, in any continuation |
| `Reconnect.AlwaysConsumingIff` | packages/broker-sdk/src/broker.service.ts:223-231 | A channel in use outside an attempt has every subscription replayed, in every run, if and only if a bind rejects only after its channel was lost |
| `Reconnect.HalfSubscribed` | packages/broker-sdk/src/broker.service.ts:267-279 | A run in which a rejected bind leaves a channel in use with subscriptions missing and no retry pending |
| `Reconnect.BrokerConnection.HandleConnectionIssue` | packages/broker-sdk/src/broker.service.ts:233-247 | Ignored when shutting down; otherwise drops the channel and schedules at most one reconnect; keeps the reconnect invariant |
| `Reconnect.BrokerConnection.ScheduleReconnect` | packages/broker-sdk/src/broker.service.ts:249-261 | No second timer while reconnecting or shutting down; otherwise the next delay is scheduled and counted; keeps the reconnect invariant |
| `Reconnect.BrokerConnection.OnTimer` | packages/broker-sdk/src/broker.service.ts:261-267 | Starts one attempt, or none when shutting down; keeps the reconnect invariant |
| `Reconnect.BrokerConnection.OnAttemptEnd` | packages/broker-sdk/src/broker.service.ts:226-279 | Resets the backoff only on a full setup, then schedules again exactly when the channel is missing and it is not shutting down; keeps the reconnect invariant |
| `Reconnect.BrokerConnection.OnModuleDestroy` | packages/broker-sdk/src/broker.service.ts:38-45 | Sets the shutdown flag and clears a pending timer; keeps the reconnect invariant |
| `PurchaseSafety.SameKeySamePurchase` | apps/purchase-service/src/purchases/purchase.service.ts:31-94 | For every interleaving of requests sharing a non-empty key, all successful responses name the same purchase, the only one with that key |
| `PurchaseSafety.PurchasesMatchOutbox` | apps/purchase-service/src/purchases/purchase.service.ts:49-75 | In every reachable state purchases and PurchaseCompleted rows correspond one to one with the same user and amount |
| `PurchaseSafety.NoKeyNewPurchase` | apps/purchase-service/src/purchases/purchase.service.ts:44-61 | Without a key every success is a purchase of its own with the caller's user and amount |
| `PurchaseSafety.EmptyKeySucceedsOnce` | apps/purchase-service/src/purchases/purchase.service.ts:36-36 | The empty key is falsy in the guards but unique in the table: at most one request carrying it ever succeeds |
| `PurchaseSafety.LoserFindsWinner` | apps/purchase-service/src/purchases/purchase.service.ts:76-84 | A request that lost the race always finds the winner's row on its second lookup and answers with that purchase |
| `PurchaseSafety.UsedKeyWritesNothing` | apps/purchase-service/src/purchases/purchase.service.ts:49-84 | A transaction whose key is taken writes nothing: the request goes on to the second lookup, or fails when the key is empty |
| `PurchaseSafety.StepPreservesInv` | apps/purchase-service/src/purchases/purchase.service.ts:31-94 | Every lookup, transaction, collision, second lookup, publish and error keeps distinct keys, the one-to-one correspondence and the ownership of drawn ids |
| `PurchaseService.Service.CreatePurchase` | apps/purchase-service/src/purchases/purchase.service.ts:31-94 | One uninterrupted call: a used key returns its holder and writes nothing, a used empty key fails, anything else writes one purchase and one event; each call is a run of the protocol |
| `Admin.RunKeepsOrderAndReferences` | apps/loyalty-service/src/admin/admin-config.service.ts:55-153 | Over every serial run of creates and updates, accepted or rejected: positions stay distinct (per group for achievements) and every rule, badge and group reference resolves |
| `Admin.RunKeepsRelativeOrder` | apps/loyalty-service/src/admin/admin-config.service.ts:234-280 | Over every run, items that no operation names keep their list and their relative order, table by table |
| `Admin.EditIsInsertion` | apps/loyalty-service/src/admin/admin-config.service.ts:128-153 | An accepted edit lands its item at the requested position, keeps positions distinct, keeps the order of all others and leaves the other tables' positions alone |
| `Admin.EditResolved` | apps/loyalty-service/src/admin/admin-config.service.ts:287-300 | No accepted operation leaves an unresolved reference |
| `Admin.OthersKeepContents` | apps/loyalty-service/src/admin/admin-config.service.ts:234-280 | Making room changes nothing but sort orders of rows other than the edited one |
| `AdminEdits.CreateGroupMeans` | apps/loyalty-service/src/admin/admin-config.service.ts:55-71 | Refused exactly when the key is taken; otherwise the group has the given name and the given order or one after all others, and groups at or after it go down by one |
| `AdminEdits.UpdateGroupMeans` | apps/loyalty-service/src/admin/admin-config.service.ts:73-89 | Refused exactly when the key is unknown; otherwise given fields are new, absent ones old, and others move only if the group did |
| `AdminEdits.CreateAchievementMeans` | apps/loyalty-service/src/admin/admin-config.service.ts:107-126 | Which error is reported, in terms of the tables: bad rule, unknown reference, id taken, name taken, unknown group, in that order, else none; a refusal changes nothing; an accepted achievement is stored as given and the rows of its group at or after it go down by one |
| `AdminEdits.UpdateAchievementMeans` | apps/loyalty-service/src/admin/admin-config.service.ts:128-153 | The same for an update: given fields are new, absent ones old, and others move only if group or order changed |
| `AdminEdits.CreateBadgeMeans` | apps/loyalty-service/src/admin/admin-config.service.ts:187-210 | Refused exactly for an unknown required id, a taken id or a taken name, in that order; an accepted badge is stored as given and badges at or after it go down by one |
| `AdminEdits.UpdateBadgeMeans` | apps/loyalty-service/src/admin/admin-config.service.ts:212-232 | Refused exactly for an unknown required id, an unknown badge or a taken name, in that order; otherwise name, order, required list and reward are the given ones where given and the old ones where not |
| `Admin.DefaultIsLast` | apps/loyalty-service/src/admin/admin-config.service.ts:282-285 | A group created without a sort order comes after every other group |
| `Admin.CatalogDropsNone` | apps/loyalty-service/src/admin/admin-config.service.ts:388-398 | After any run the catalog shows every required achievement of every badge, in its place |
| `Admin.CatalogLength` | apps/loyalty-service/src/admin/admin-config.service.ts:394-396 | The filtered catalog list is full length if and only if every id resolves |
| `Ordering.PlacedIsInsertion` | apps/loyalty-service/src/admin/admin-config.service.ts:235-267 | Shift and insert keep positions distinct, place the item and keep everyone else's order |
| `Ordering.PlacedSplitsTheList` | apps/loyalty-service/src/admin/admin-config.service.ts:241-250 | After an insertion exactly the items formerly before the target precede the item and exactly the others follow it |
| `AdminService.MissingIds` | apps/loyalty-service/src/admin/admin-config.service.ts:287-300 | Returns each unknown id once; empty exactly when all references resolve |
| `AdminService.AdminConfigService.CreateGroup` | apps/loyalty-service/src/admin/admin-config.service.ts:55-71 | Reports the conflict and changes nothing, or stores the given name and order and moves the groups at or after it; positions stay distinct and references resolved |
| `AdminService.AdminConfigService.UpdateGroup` | apps/loyalty-service/src/admin/admin-config.service.ts:73-89 | Reports an unknown key and changes nothing, or changes exactly the given fields and, if the group moved, the orders at or after it; positions stay distinct and references resolved |
| `AdminService.AdminConfigService.CreateAchievement` | apps/loyalty-service/src/admin/admin-config.service.ts:107-126 | Stores the achievement as given, making room in its group, or rolls back with the first of bad rule, unknown reference, conflict, duplicate name, unknown group; positions stay distinct and references resolved |
| `AdminService.AdminConfigService.UpdateAchievement` | apps/loyalty-service/src/admin/admin-config.service.ts:128-153 | Changes exactly the given fields, making room only when group or order changed, or rolls back with the first objection; positions stay distinct and references resolved |
| `AdminService.AdminConfigService.CreateBadge` | apps/loyalty-service/src/admin/admin-config.service.ts:187-210 | Stores the badge as given, making room, or rolls back with the first of unknown reference, conflict, duplicate name; positions stay distinct and references resolved |
| `AdminService.AdminConfigService.UpdateBadge` | apps/loyalty-service/src/admin/admin-config.service.ts:212-232 | Changes exactly the given fields, reward included, making room only when the order changed, or rolls back with the first objection; positions stay distinct and references resolved |
| `AdminService.AdminConfigService.NextGroupSortOrder` | apps/loyalty-service/src/admin/admin-config.service.ts:282-285 | One past the greatest sort order of all groups, 1 for an empty table |
| `CashbackSafety.PaymentSafety` | apps/cashback-service/src/cashback/cashback.service.ts:292-403 | With a synchronous provider, over every interleaving of workers, re-attempts, repeated and rolled back badge events, crashes, manual retries and scans: each user and badge is paid at most once, each PROCESSING row has exactly one owner, money sent equals the amounts of the SUCCESSFUL and accepted-but-unsaved rows |
| `CashbackSafety.SuccessIsTerminal` | apps/cashback-service/src/cashback/cashback.service.ts:292-429 | With a synchronous provider a SUCCESSFUL row stays SUCCESSFUL in every continuation |
| `CashbackSafety.StepPreservesInv` | apps/cashback-service/src/cashback/cashback.service.ts:292-429 | Every step keeps single ownership, ledger and row agreement, one row per user and badge, and payees of jobs and retries |
| `CashbackSafety.MoneyConserved` | apps/cashback-service/src/cashback/cashback.service.ts:323-345 | Money sent is the sum of amountKobo over paid rows, each counted once |
| `CashbackExact.PaysTwice` | apps/cashback-service/src/cashback/cashback.service.ts:336-345 | A run that pays twice when the provider answers PENDING or a call fails after the transfer, however that failure is classified |
| `CashbackExact.AtMostOnceIff` | apps/cashback-service/src/payments/paystack-webhook.service.ts:99-125 | No run pays a user twice for a badge if and only if the provider is synchronous, nothing fails after the transfer and no webhook arrives |
| `CashbackExact.FailureWebhookUndoesSuccess` | apps/cashback-service/src/payments/paystack-webhook.service.ts:101-118 | A failure webhook turns a SUCCESSFUL row into FAILED, keeping its retry count |
| `CashbackExact.WebhooksSave` | apps/cashback-service/src/payments/paystack-webhook.service.ts:75-125 | A webhook's lookup changes no row; its save clears code and flag and marks success, or records FAILED with the classified reason, and keeps everything else |
| `CashbackService.Service.HandleBadgeUnlocked` | apps/cashback-service/src/cashback/cashback.service.ts:90-141 | A processed event changes nothing; otherwise it is marked, one first-attempt job for the event's user is queued for a row of that user and badge, and a row that is new is PENDING with the event's reward or the default; no existing row changes |
| `CashbackService.Service.ProcessPayment` | apps/cashback-service/src/cashback/cashback.service.ts:292-403 | One job attempt. Unless the row is PENDING: no row, payment or call, and the job is done, or counted as failed when the row is missing. Otherwise exactly one provider call and the row, ledger and queue the answer calls for; it is a run of the protocol |
| `CashbackService.CallMeans` | apps/cashback-service/src/cashback/cashback.service.ts:292-403 | What one call does to the tables, field by field: an accepted transfer pays the row's amount to the job's payee and clears the failure fields, a soft failure with attempts left hands row and job back, any other failure ends the round with one more retry counted |
| `CashbackService.Service.SaveFailure` | apps/cashback-service/src/cashback/cashback.service.ts:358-386 | A retryable failure with attempts left hands the row back; any other saves FAILED with code, flag, count and next retry time, leaving what is undefined as it was |
| `CashbackService.Service.SaveResult` | apps/cashback-service/src/cashback/cashback.service.ts:336-345 | An accepted transfer is entered once and the row saved from the snapshot with the failure fields cleared |
| `CashbackService.Service.RetryPayment` | apps/cashback-service/src/cashback/cashback.service.ts:412-429 | Rejects an unknown id, refuses unless FAILED; otherwise PENDING again with one new job |
| `CashbackService.Service.RetryEligibleFailedTransactions` | apps/cashback-service/src/cashback/cashback.service.ts:203-251 | Every transaction that is FAILED, flagged retryable, below maxAutoRetries, due (no next retry or one not later than now) and whose user has bank details becomes PENDING with no next retry and gets exactly one new job; every other row is unchanged, ledger and calls too; nothing at all while another scan runs; it is a run of the protocol |
| `CashbackRetries.SuccessKeepsRetryCount` | API.md:283-286 | A reachable SUCCESSFUL row that is not as documented, in every environment |
| `CashbackRetries.DocumentedIff` | apps/cashback-service/src/cashback/cashback.service.ts:337-344 | In every run of every environment a SUCCESSFUL row is as documented if and only if its retry count is 0 and it has no next retry; without webhooks, if and only if its retry count is 0 |
| `CashbackRetries.CountDecidesIff` | apps/cashback-service/src/payments/paystack-webhook.service.ts:86-90 | The retry count alone decides that, in every run, if and only if there are no webhooks |
| `CashbackRetries.WebhookKeepsNextRetry` | apps/cashback-service/src/payments/paystack-webhook.service.ts:86-90 | A run in which a success webhook over a FAILED row with reset count leaves count 0 and a next retry |
| `CashbackRetries.FailedRowsAreClassified` | apps/cashback-service/src/cashback/cashback.service.ts:203-226 | In every run with any provider, webhooks and faults, starting from the errors thrown: code and flag of a row come together and agree with the public table, so no scan selects a hard failure, and a FAILED row has them unless an inherited key was looked up |
| `CashbackRetries.AlwaysCodedIff` | apps/cashback-service/src/payments/paystack-payment.provider.ts:133-137 | Every FAILED row has a code and its flag, in every run, if and only if no error code looked up is an inherited object key |
| `CashbackRetries.FailedWithoutCode` | apps/cashback-service/src/payments/paystack-payment.provider.ts:134-136 | A run in which a reply with error code constructor leaves a FAILED row with neither code nor flag |
| `CashbackRows.StepEvolves` | apps/cashback-service/src/cashback/cashback.service.ts:292-429 | Every step of every environment keeps a row's failure fields, reopens it with them, clears them, records a caught failure or saves a webhook's result |
| `CashbackRows.HandsBackOnlyProcessing` | apps/cashback-service/src/cashback/cashback.service.ts:358-370 | A soft failure with attempts left makes a row PENDING only if it is PROCESSING, and changes nothing else about any row |
| `CashbackRows.RollbackLeavesJob` | apps/cashback-service/src/cashback/cashback.service.ts:102-141 | A handler that rolls back after queueing leaves nothing but one job, for the existing row or for one that will not exist |
| `RetryLimits.DelaysNeverShrink` | apps/cashback-service/src/cashback/cashback.service.ts:373-380 | Over every run of one instance, crashes and rollbacks included: of two rounds of a transaction the later schedules at least the delay of the earlier, and none exceeds one hour |
| `RetryLimits.ScansAreOnTime` | apps/cashback-service/src/cashback/cashback.service.ts:212-226 | In every run of every environment each automatic selection finds its row FAILED, flagged, below maxAutoRetries and not before its next retry time |
| `RetryLimits.NextRetryWaits` | apps/cashback-service/src/cashback/cashback.service.ts:373-380 | After the failure that ends a round, the next automatic selection of that transaction comes no earlier than the failure plus the delay scheduled for it, in every continuation of one instance |
| `RetryLimits.DelaysDouble` | apps/cashback-service/src/cashback/cashback.service.ts:405-410 | The first delay is the base, each later one twice the one before, none above one hour |
| `RetryBudget.CallBudget` | apps/cashback-service/src/cashback/cashback.service.ts:61-67 | Provider calls for a transaction are at most 3 * max(1, maxAutoRetries) in any run of one instance with one badge event, whose handler may roll back and be redelivered, a synchronous provider, no webhooks or manual retries, and any crash except between a catch block and the queue's bookkeeping |
| `RetryLimits.BudgetIff` | apps/cashback-service/src/cashback/cashback.service.ts:358-370 | That bound holds in every such run if and only if the process never dies between a catch block and the queue's bookkeeping |
| `RetryLimits.CrashesCostCalls` | apps/cashback-service/src/cashback/cashback.service.ts:358-370 | With such crashes any number of calls is reached, one more per crash |
| `RetryBudget.DisciplinedStep` | apps/cashback-service/src/cashback/cashback.service.ts:358-386 | Every such step, rollbacks and crashes included, keeps one token per row and its call count, lets no retry count fall, and moves no row that is paid or whose owner died |
| `RetryTokens.OrderlyStep` | apps/cashback-service/src/cashback/cashback.service.ts:292-429 | At most one job, worker or retry holds a row, and its calls are bounded by the rounds and attempts used |
| `Failures.ClassifyConsistent` | apps/cashback-service/src/payments/payment-provider.ts:44-70 | Whatever the message patterns match, the flag agrees with the code's entry in the public table |
| `Failures.FirstMatchDecides` | apps/cashback-service/src/payments/payment-provider.ts:44-70 | The first pattern that matches decides code and flag: insufficient balance, invalid account, duplicate reference, unavailable, else rejected; a payment error comes back unchanged |
| `Failures.OutagesComeFirst` | apps/cashback-service/src/payments/paystack-payment.provider.ts:121-131 | A refusal with status 429 or at least 500 is an unavailable provider, whatever the body says |
| `Failures.KnownCodesDecide` | apps/cashback-service/src/payments/paystack-payment.provider.ts:16-28 | Any other refusal with one of the nine documented error codes gets that code's entry, whatever its message matches |
| `Failures.OtherwiseTheMessageDecides` | apps/cashback-service/src/payments/paystack-payment.provider.ts:132-143 | Without a documented or inherited code the message is classified as for any other error |
| `Failures.FailuresAreConsistentIff` | apps/cashback-service/src/payments/paystack-payment.provider.ts:108-143 | Whatever is thrown, the recorded failure agrees with the public table if and only if no inherited object key was looked up as an error code; 429 and 5xx are retryable even when the body names a hard error |
| `Failures.InheritedKeyHasNoCode` | apps/cashback-service/src/payments/paystack-payment.provider.ts:133-136 | The failing reply: error code constructor yields a failure with neither code nor flag |

## Left out

- The API gateway, guards, HTTP client and response envelopes: forwarding and presentation.
- Webhook signatures and raw bodies: cryptography and I/O. The two webhook effects on a row are modelled.
- Paystack HTTP calls, bank lists, recipient codes and payout account upserts; only the classification of its answers is modelled.
- Migrations, seeding, environment parsing, DTO decorators other than the rule shape, module wiring, logging.
- Listing, pagination, search filters, and the grouping in `getAchievementState`: easy members.
- Presentation columns (description, image, active flag, currency) of groups, achievements and badges; the handlers see the active configs.
- `null` for an optional field of an admin update: the database rejects it and nothing changes.
- CashbackProcessed events and their outbox rows: they feed no other component.
- The heartbeat of the scan lock: expiry is an arbitrary event, allowed or not.
- `sendToQueue` back-pressure, prefetch limits and per-queue topology: queues are unbounded and unordered.
- OutboxSafety.RowSafety: a row whose publisher died stays PUBLISHING; that it is never published later is the code's behaviour and no recovery is modelled.
