# Verified model of the ad platform's control plane and fraud policy

This project models, in Dafny, the parts of the control plane (`internal/controlplane`) and of the
fraud policy calibration (`model`) that carry its guarantees, and proves those guarantees for every
input, every run or every reachable state.

| files | what they model |
|---|---|
| `RegionRelay`, `RelayBatch`, `RelayEffects`, `RelayLiveness`, `RelayReplay` | the region outbox relay: any number of workers, interleaved statement by statement, each call against its code as a structured program |
| `ControlFanout` | setting a key on all Redis shards as a claim |
| `PostgresGate` | the two-class admission gate in front of Postgres |
| `Ledger`, `LedgerEffects`, `LedgerLaws`, `LedgerService`, `ReserveLaws`, `CampaignCost` | balances, payments, cancellation and overdraft as transactions, what each does, their laws, the object that runs them, how often a reserve is returned, and what a campaign costs |
| `Quota`, `QuotaCode`, `QuotaGuards`, `QuotaRepair` | quota chunks reserved in Postgres and granted in Redis, refills and warm-ups against their code, their guards, and drift repair |
| `LeaseFencing` | persistent fencing epochs |
| `SpendReconciler`, `SpendFlush` | batching of cross-region spend, its ledger flush and its Redis debits |
| `NodeScorer`, `NodeWeights`, `RegionDial`, `RegionRows` | node scores, hysteresis of traffic weights, shares per node and region, and the same in plain terms |
| `ScoringPolicy`, `PolicyCalibration` | the fraud policy, its vectorised form and the grid search that tunes it |
| `RateLimiter`, `RateBounds`, `EvictionVisibility` | the bounded table of token buckets, what it allows, and the table against the unbounded one |

Concurrent code is a state machine: a state, actions that are single channel operations, SQL
statements, transactions, Redis commands or file operations, and runs over any sequence of enabled
actions, with failures, lost acknowledgements and crashes as actions of their own. Objects that the
source updates in place are classes whose methods are proved against functions; the laws are proved
of those functions. Clocks, replies of external systems and choices of a select are parameters or
nondeterministic choices. Amounts are unbounded integers and float64 is `real`.

Where the code and a plain reading of it or of its documentation disagree, the model follows the
code and the condition is stated exactly:

- `balance = SUM(amount)` (docs/ARCHITECTURE.md line 338) fails as soon as a campaign is created, because a FREEZE row carries what is taken with a positive sign, and FEE and RECONCILIATION_ADJUST rows move no balance (`SumOfAllEntriesIff`, `CreationBreaksSum`).
- An event can be applied twice after a late revert, a new routing epoch and a silent Redis (`ReplayPossibleIff`, `HandlerMayRunTwice`).
- A refund does not look at open chargebacks, so both together can take twice the payment (`JointCeilingHoldsIff`, `JointCeilingAttained`).
- A reserve returned by an overdraft suspension is returned again by finalisation (`ReserveReturnedOnceIff`, `ReserveReturnedTwice`).
- A warm-up that finds its reservation already made grants, or on failure releases, a chunk it did not reserve (`WarmUpExceedsIff`, `RetryGrantsUnreserved`, `UnreservedWithoutRepeatedGrant`); a refill can take its lock (`RefillTakesWarmUpLock`).
- Redis is debited for items the ledger left out as duplicates or for want of balance (`DebitMatchesLedgerIff`, `ApplyTwice`).
- Releasing drift in Postgres widens it (`ReleaseWidensGap`); topping up a missing key can take Redis beyond the reservation (`MissingKeyTopUp`).
- Overlapping fencing calls can repeat an epoch, exactly when an issued one is above the file (`RepeatPossibleIff`, `OverlappingCallsRepeatAnEpoch`).
- A share can be below the configured minimum weight unless the bounds leave room for it (`SharesReachMinimumIff`); nodes with a hard signal keep a share when all have one (`HardSignalDrainsIff`).
- The calibration grid offers a guard cap of 0.81, which lets guarded rows be blocked (`GuardKeepsPlainRowsUnblockedIff`, `ShippedGuardIff`), and never changes the model threshold from its first value (`CalibrationIsSound`).
- On two or more shards, two or more callers can all lose a claim (`SomebodyAlwaysWinsIff`).
- A dial under a configuration without a window or a sample count freezes every region (`RegionIsScoredIff`).

## Model

| member | source | states |
|---|---|---|
| `RegionRelay.StepKeepsInv` | internal/controlplane/region_outbox_relay.go:95-348 | every atomic statement of every worker (poll, claim, idempotency check, SETNX, handler, commit, mark, revert), every failure, lost acknowledgement and crash, and every environment step (insert, clock, routing epoch, key expiry, stale reclaim) keeps the relay's invariant |
| `RegionRelay.DeliveredWasHandled` | internal/controlplane/region_outbox_relay.go:113-203 | in every reachable state of any number of workers: a DELIVERED row has its idempotency row, an idempotency row implies an earlier successful handler run, and so does every row a call reports as delivered, even the one left PROCESSING when the insert affects no row |
| `RegionRelay.NoReplayOnceApplied` | internal/controlplane/region_outbox_relay.go:238-319 | an attempt that begins on an event already applied never reaches the handler again, unless it confirmed its own claim and Redis did not answer or there are no shards; so never without a dedup adapter |
| `RelayBatch.PollTakesOldest` | internal/controlplane/region_outbox_relay.go:123-160 | a poll takes pending, unlocked rows, each once, oldest first; it leaves one only after taking `limit` older ones; exactly these become PROCESSING, as of now |
| `RelayBatch.CallFollowsCode` | internal/controlplane/region_outbox_relay.go:113-348 | simulation: from its poll on, whatever other workers, the clock and Redis do in between, a worker issues exactly the statements of the loop and of applyDelivery written as a structured program, row by row and answer by answer, and returns when that program does with the rows it counts; every statement may also fail, every write also lose its acknowledgement |
| `RelayBatch.BatchIsWorkedThrough` | internal/controlplane/region_outbox_relay.go:162-184 | at every point of a call the polled rows are, in order, those that ended, each by being counted or by its own revert, acknowledged or not, followed by those still open; so all have ended when it returns, and it reports exactly the counted ones |
| `RelayBatch.FailureLeavesTheNextRow` | internal/controlplane/region_outbox_relay.go:165-177 | after a revert, acknowledged, lost or refused, the next row is attempted from its first statement |
| `RelayEffects.StatementEffect` | internal/controlplane/region_outbox_relay.go:165-348 | a failed statement changes no table; one that takes effect, acknowledged or not, changes exactly the table it is about, for the row at work |
| `RelayEffects.EnvironmentEffect` | internal/controlplane/region_outbox_relay.go:37-93 | what inserts, time, routing epochs, expiring keys and crashes change, and what they leave |
| `RelayEffects.HandledCountsRuns` | internal/controlplane/region_outbox_relay.go:286-345 | over every run the handler of an event ran exactly as often as the handled count says |
| `RelayEffects.ReclaimReturnsStale` | internal/controlplane/region_outbox_relay.go:95-106 | a reclaim returns exactly the rows that have been PROCESSING for more than 60 seconds |
| `RelayEffects.RowIsKeptForAMinute` | internal/controlplane/region_outbox_relay.go:95-106 | within 60 seconds of its poll no reclaim and no other poll takes a row, over every run without a statement on it |
| `RelayEffects.ReplayNeedsSilentRedis` | internal/controlplane/region_outbox_relay.go:238-345 | in the statements issued: an attempt begun on an applied event comes to its handler only if its own claim was confirmed and a SETNX of it got no answer, or there is no shard |
| `RelayReplay.ReplayPossibleIff` | internal/controlplane/region_outbox_relay.go:238-319 | exactly when an attempt about to claim an applied event can still reach its handler by steps of its own worker: if and only if the key of that event under the current routing epoch is not confirmed yet |
| `RelayReplay.HandlerMayRunTwice` | internal/controlplane/region_outbox_relay.go:165-176 | for every number of shards, a reachable worker stands at the handler of an event that was applied before its attempt began, under a claim it confirmed itself, and its next statement runs the handler a second time; the run goes through a late revert of the DELIVERED row and a new routing epoch |
| `RelayLiveness.FinishRow` | internal/controlplane/region_outbox_relay.go:238-348 | from any statement of an attempt, a bounded number of successful statements finishes the row, and delivers it unless the attempt confirmed its claim itself, in which case the claim is recorded for the next attempt |
| `RelayLiveness.NoDeliveryIsStuck` | internal/controlplane/region_outbox_relay.go:95-185 | from every reachable state, at most 2n(2k+9) clock, reclaim, poll and statement steps of one free worker (n rows, k shards) deliver every row, including rows left PROCESSING and rows reverted after delivery |
| `ControlFanout.SetNXOnAllShards` | internal/controlplane/control_fanout.go:77-95 | the answer is true exactly when no shard had the key; existing values are kept; the first nil or unanswering shard ends the call with the shards before it set and the others untouched; no client at all is an error |
| `ControlFanout.AtMostOneWins` | internal/controlplane/control_fanout.go:77-95 | over every interleaving of any number of callers, with errors and lost acknowledgements, at most one is told the key was new on every shard |
| `ControlFanout.SomebodyAlwaysWinsIff` | internal/controlplane/control_fanout.go:77-95 | with the key absent, every run in which all calls succeed has a winner if and only if there is one caller or one shard (and at least one of each); for every other count a run tells every caller the key was not new |
| `PostgresGate.Capacity` | internal/controlplane/postgres_gate.go:23-27 | the semaphore holds at least two; `AdmittedTogetherIff` says how many |
| `PostgresGate.LowCapacity` | internal/controlplane/postgres_gate.go:28-31 | low slots are at least one and fewer than the semaphore's capacity |
| `PostgresGate.StepKeepsInv` | internal/controlplane/postgres_gate.go:39-98 | each channel operation and counter update keeps: semaphore, low slots and in-flight counter equal the numbers of callers that hold them |
| `PostgresGate.CountersOrdered` | internal/controlplane/postgres_gate.go:39-105 | in every reachable state in-flight <= semaphore occupancy <= capacity, low holders <= capacity - 1, a full semaphore has a high holder, and all three counters are zero when nobody is inside |
| `PostgresGate.ReleaseNeverBlocks` | internal/controlplane/postgres_gate.go:56-98 | no step of a release or of a cancelled acquire ever blocks |
| `PostgresGate.BlockedCallerHasLiveHolder` | internal/controlplane/postgres_gate.go:39-89 | a caller blocked on the full semaphore waits for a high holder whose next step is enabled |
| `PostgresGate.WaitingMoves` | internal/controlplane/postgres_gate.go:44-88 | a waiting caller is admitted exactly when the semaphore has room and may give up at any time, a low one returning its slot |
| `PostgresGate.LowCallMoves` | internal/controlplane/postgres_gate.go:64-77 | a low caller gets a slot exactly when there is one and is rejected exactly when there is none |
| `PostgresGate.EveryScheduleServes` | internal/controlplane/postgres_gate.go:39-98 | from every reachable state, every run of steps without arrivals and cancellations can be extended until everybody is out and all counters are zero, after exactly the number of steps the callers have left: no deadlock and no fairness needed |
| `PostgresGate.AdmittedTogetherIff` | internal/controlplane/postgres_gate.go:23-98 | h high and l low callers can be inside together if and only if h + l <= max(2, maxConns - 1) and l <= max(2, maxConns - 1) - 1; both directions over all reachable states |
| `PostgresGate.Gate.AcquireHigh` | internal/controlplane/postgres_gate.go:39-54 | the fields change by exactly the steps of an admitted, a cancelled or a still waiting high acquire; it waits exactly when the semaphore is full and the context is live |
| `PostgresGate.Gate.AwaitHigh` | internal/controlplane/postgres_gate.go:44-53 | the select of a waiting high acquire, looked at again: admitted, cancelled, or still waiting with nothing changed |
| `PostgresGate.Gate.ReleaseHigh` | internal/controlplane/postgres_gate.go:56-62 | the fields change by exactly the steps of a high release |
| `PostgresGate.Gate.AcquireLow` | internal/controlplane/postgres_gate.go:64-89 | rejected only when the low channel is full; otherwise the steps of an admitted low acquire, of one cancelled before or after taking the slot, which is returned, or of one that holds its slot and waits, exactly when the semaphore is full and the context is live |
| `PostgresGate.Gate.AwaitLow` | internal/controlplane/postgres_gate.go:78-88 | the second select of a waiting low acquire, looked at again |
| `PostgresGate.Gate.ReleaseLow` | internal/controlplane/postgres_gate.go:91-98 | the fields change by exactly the three steps of a low release |
| `Ledger.FindKey` | internal/controlplane/service.go:328-331 | finds an entry with the idempotency key if and only if there is one |
| `Ledger.FindTopup` | internal/controlplane/service.go:361-379 | finds the top-up of a payment intent if and only if there is one |
| `LedgerLaws.BalanceIsOpeningPlusEntries` | internal/controlplane/service.go:322-352 | over every run of committed and aborted transactions, a balance is its opening value plus the balance changes of its entries: the amount, but minus the amount of a FREEZE row and nothing for FEE and RECONCILIATION_ADJUST rows; and it is never below the overdraft |
| `LedgerLaws.SumOfAllEntriesIff` | docs/ARCHITECTURE.md:338 | the documented law balance = SUM(amount) is off by exactly the FEE and RECONCILIATION_ADJUST rows plus twice the FREEZE rows; where none of those is negative, it holds if and only if there is none with an amount |
| `LedgerLaws.CreationBreaksSum` | internal/controlplane/service_campaign.go:1313-1349 | a customer whose only entry is the FREEZE row of a created campaign is off by twice the budget |
| `LedgerLaws.OneEntryPerKey` | internal/controlplane/service.go:361-379 | over every run there is at most one entry per idempotency key and at most one top-up per payment intent |
| `LedgerLaws.ReplayChangesNothing` | internal/controlplane/service.go:442-450 | removing a request that repeats the key or the payment of an applied one, anywhere later in any run and whatever came between, leaves the final database the same |
| `LedgerLaws.ReplaysAreSilent` | internal/controlplane/service.go:544-552 | removing from a run every request that is already answered when it comes leaves the final state unchanged |
| `LedgerLaws.PaymentCeilings` | internal/controlplane/service.go:460-466 | over every run 0 <= refunds <= top-up and 0 <= net chargeback <= top-up for each intent; their sum stays within the top-up on every run that takes no refund while a chargeback is open, and within twice the top-up always |
| `LedgerLaws.JointCeilingHoldsIff` | internal/controlplane/service.go:460-466 | over every run, refunds and open chargebacks of a payment stay together within it in every state if and only if each refund fitted, when it was accepted, in what refunds and the open chargeback had left |
| `LedgerLaws.JointCeilingAttained` | internal/controlplane/service.go:562-582 | the doubled ceiling is reached: top-up, full chargeback, full refund |
| `LedgerLaws.FinalisedAtMostOnce` | internal/controlplane/service.go:691-752 | over every run from an opening database a campaign is moved to DELETED at most once, and is DELETED from then on |
| `LedgerEffects.TopUpEffect` | internal/controlplane/service.go:322-352 | exactly when a top-up is applied; then the balance rises by the amount, one TOPUP row carries customer, key and amount, and nothing else changes |
| `LedgerEffects.CreditEffect` | internal/controlplane/service.go:354-429 | the same of a payment credit, with a PAYMENT_TOPUP row of the intent |
| `LedgerEffects.RefundEffect` | internal/controlplane/service.go:431-513 | a refund lowers the balance by the amount and books one negative PAYMENT_REFUND row of the intent, or changes nothing |
| `LedgerEffects.RefundAppliedIff` | internal/controlplane/service.go:431-513 | exactly when a refund is applied |
| `LedgerEffects.ChargebackEffect` | internal/controlplane/service.go:523-639 | a chargeback lowers the balance by the amount and books one negative PAYMENT_CHARGEBACK row, or changes nothing |
| `LedgerEffects.ChargebackAppliedIff` | internal/controlplane/service.go:523-639 | exactly when a chargeback is applied |
| `LedgerEffects.ReversalEffect` | internal/controlplane/service.go:523-639 | exactly when a reversal is applied; then the balance rises by the amount, with one PAYMENT_CHARGEBACK_REVERSAL row |
| `LedgerEffects.CreateEffect` | internal/controlplane/service_campaign.go:1255-1376 | exactly when a campaign is created; then the balance falls by its budget, with one FREEZE row, the campaign without spend, its history row and its event |
| `LedgerEffects.SpendEffect` | internal/domain/store_campaign.go:390-478 | exactly when spend is settled; then the spend of the campaign rises by the amount, with one negative FEE row, and no balance moves |
| `LedgerEffects.DuplicateNamesItsRow` | internal/controlplane/service.go:361-379 | a repeated request is answered with the id of the row that has its key or its payment |
| `LedgerEffects.TakenKeyAnswers` | internal/controlplane/service_campaign.go:1275-1285 | a key that is taken answers every request with its row, a creation only when that row names a campaign |
| `LedgerEffects.TransferEffect` | internal/controlplane/service_platform.go:1048-1150 | a transfer leaves every balance, moves the amount from one limit to the other and books it out and in, or changes nothing |
| `LedgerEffects.TransferMovesIff` | internal/controlplane/service_platform.go:1048-1150 | exactly when a transfer moves anything |
| `LedgerEffects.AdjustEffect` | internal/controlplane/recon.go:39-80 | an adjustment books one row and lowers the spend by its amount, with no balance moved |
| `LedgerEffects.CancelEffect` | internal/controlplane/service.go:641-673 | cancelling drains a campaign once, with one history row and one event, and moves no money |
| `CampaignCost.FinaliseEffect` | internal/controlplane/service.go:691-752 | a finalisation splits max(0, limit - spend) into refund and fee, the fee rounded down from the rate; the balance rises by the refund, one RELEASE row carries it and one FEE row the fee, each only when positive |
| `CampaignCost.FinaliseCommitsIff` | internal/controlplane/service.go:691-752 | exactly when a finalisation commits: nothing is left, or the customer is known and the refund keeps the overdraft; otherwise nothing changes |
| `CampaignCost.FinaliseWaits` | internal/controlplane/service.go:691-694 | a campaign that is not draining is left alone |
| `CampaignCost.SuspensionReturns` | internal/controlplane/service.go:859-948 | a committed overdraft decrease returns exactly the sum of max(0, limit - spend) of the campaigns it pauses, to that customer only |
| `CampaignCost.LimitAndSpendFollowTheRows` | internal/domain/store_campaign.go:390-478 | over every run a limit is the opening limit plus the FREEZE rows less what transfers released, and a spend the opening spend plus the settled FEE rows less the adjustments, but for edits by other code |
| `CampaignCost.FinalisedCampaignCosts` | internal/controlplane/service.go:691-752 | after any run that creates a campaign, finalising it leaves its rows at what is left less the fee, minus the limit, plus what suspensions returned; without those and without a fee it has cost min(spend, limit) |
| `CampaignCost.CampaignCostsItsSpend` | internal/controlplane/service.go:691-752 | a customer with one campaign and nothing else: after any run that creates, settles, adjusts, retries and cancels it, finalising without a fee leaves the balance lower by exactly min(spend, limit) |
| `CampaignCost.OneLife` | internal/controlplane/service.go:641-752 | such a run: created with a limit, settled, cancelled and finalised |
| `LedgerLaws.FinalisationSplitsReserve` | internal/controlplane/service.go:691-752 | finalisation moves the balance by the refund only, max(0, limit - spend) less the fee rounded down from the rate; the rows it books sum to max(0, limit - spend) if and only if the fee does not exceed that, as with every rate up to 100 percent |
| `LedgerService.SuspendEffect` | internal/controlplane/service.go:859-948 | lowering an overdraft pauses exactly a list of active campaigns, each only while the available limit is still negative, returns exactly the sum of their max(0, limit - spend) with one RELEASE row and one PAUSE_CAMPAIGN event each, and ends with the limit covered or no listed campaign ACTIVE |
| `LedgerService.OverdraftCommitsIffCovered` | internal/controlplane/service.go:846-965 | lowering an overdraft commits if and only if the balance, the new overdraft and max(0, limit - spend) of the distinct ACTIVE listed campaigns, up to the first missing row, come to zero or more before the call; otherwise nothing changes and the error tells whether a row was missing |
| `LedgerService.SuspendableAre` | internal/controlplane/service.go:859-886 | those campaigns are the listed ACTIVE ones, each once, when every listed row exists |
| `LedgerService.ReserveReturnedTwice` | internal/controlplane/service.go:910-931 | a campaign suspended by an overdraft change and then cancelled and finalised without a fee gets its reserve back twice |
| `ReserveLaws.ReleasedOverRun` | internal/controlplane/service.go:691-752 | over every run a campaign's RELEASE rows, other than the keyed ones of budget transfers, sum to the reserves suspensions returned plus the refund of its finalisation; before it is finalised there are none if and only if no committed overdraft change paused it while it had a reserve |
| `ReserveLaws.FinalisationStaysWithinReserveIff` | internal/controlplane/service.go:691-752 | a committed finalisation leaves the campaign's RELEASE rows within its reserve if and only if before it they were within the fee and within the reserve |
| `ReserveLaws.ReserveReturnedOnceIff` | internal/controlplane/service.go:691-752 | after any run from an opening database, that is if and only if the suspensions of the run returned no more than the fee nor than the reserve; without a fee, if and only if it was never suspended with a reserve |
| `LedgerService.Service.TopUpBalance` | internal/controlplane/service.go:322-352 | the object's new state and answer are those of the TopUp transaction |
| `LedgerService.Service.ApplyPaymentCredit` | internal/controlplane/service.go:354-429 | the object's new state and answer are those of the Credit transaction |
| `LedgerService.Service.ApplyPaymentRefund` | internal/controlplane/service.go:431-513 | the object's new state and answer are those of the Refund transaction |
| `LedgerService.Service.ApplyChargebackMovement` | internal/controlplane/service.go:523-639 | the object's new state and answer are those of the Chargeback or Reversal transaction |
| `LedgerService.Service.CreateCampaign` | internal/controlplane/service_campaign.go:1255-1376 | the object's new state and answer are those of the Create transaction: budget taken from the balance, FREEZE row, campaign, history and event |
| `LedgerService.Service.FlushSpend` | internal/domain/store_campaign.go:390-478 | the object's new state and answer are those of the Spend transaction |
| `LedgerService.Service.TransferBudget` | internal/controlplane/service_platform.go:1048-1150 | the object's new state and answer are those of the Transfer transaction of the autoscaler |
| `LedgerService.Service.ApplyReconciliationAdjust` | internal/controlplane/recon.go:39-80 | the object's new state and answer are those of the Adjust transaction |
| `LedgerService.Service.CancelCampaign` | internal/controlplane/service.go:641-673 | the object's new state and answer are those of the Cancel transaction |
| `LedgerService.Service.FinalizeDrainingCampaign` | internal/controlplane/service.go:691-752 | the object's new state and answer are those of the Finalize transaction |
| `LedgerService.Service.UpdateOverdraft` | internal/controlplane/service.go:846-965 | the object's new state and answer are those of the SetOverdraft transaction, the loop included |
| `LedgerService.Service.SuspendCampaigns` | internal/controlplane/service.go:872-946 | the suspension loop, with its running available limit, computes exactly the suspension specified |
| `Quota.StepAccounted` | internal/controlplane/quota.go:96-231 | every reserve, grant, rollback and warm-up step, answered, failed or unacknowledged, moves reservations, grants and the history counts so that they stay equal |
| `Quota.StoresBalance` | internal/controlplane/quota.go:96-231 | at every step of every run with failures, lost replies, crashes and spend settled at any time: reserved_amount + what settling took out of it + chunk x (repeated, unacknowledged and over-released grants) = Redis grants + chunk x (in-flight, abandoned, unrolled-back and shadow reservations); Redis exceeds Postgres exactly when the former chunks outnumber the latter; reserved_amount is never negative and never beyond the room left but for spend beyond the reservation |
| `Quota.RedisNeverUnreserved` | internal/controlplane/quota.go:179-228 | with no repeated, unacknowledged or over-released grant, Redis never holds quota Postgres has not reserved |
| `QuotaCode.CallFollowsCode` | internal/controlplane/quota.go:96-231 | simulation: a refill and a warm-up issue exactly the commands of refillCampaign and of the warm-up loop written as structured programs, whatever is answered, lost or done by others, and end when those do |
| `QuotaCode.CommandEffect` | internal/controlplane/quota.go:96-231 | a failed command changes nothing; one that takes effect, acknowledged or not, changes exactly the lock, key, refill set, reservation or grant it is about; a reservation over the budget or already made under its key adds nothing |
| `QuotaCode.RefillReservesIff` | internal/controlplane/quota.go:96-107 | a refill about to claim can come to reserve, by its own steps, if and only if the lock is there |
| `QuotaCode.RefillsNeverOutnumberLocks` | internal/controlplane/quota.go:96-119 | over every run refills reserve at most once for every time the lock was set, a claim still open counted too |
| `QuotaCode.InitialReservationOnce` | internal/controlplane/quota.go:203-206 | all warm-ups of a run together reserve at most one chunk, whatever is retried, lost or crashes |
| `QuotaCode.ShadowGrantsNothing` | internal/controlplane/quota.go:126-133 | over every run that stays in shadow mode Redis is granted nothing |
| `QuotaCode.SettleEffect` | internal/ingestion/queries/quota.sql:30-34 | settling lowers reserved_amount by the amount, not below zero, and the room by all of it |
| `QuotaCode.BeginsIff` | internal/controlplane/quota.go:72-94 | when a refill and a warm-up may begin |
| `QuotaCode.EnvironmentEffect` | internal/controlplane/quota.go:96-231 | what crashes, lost keys, expiring locks and refill requests do, and what they leave |
| `QuotaGuards.WarmUpExceedsIff` | internal/controlplane/quota.go:199-225 | a warm-up about to reserve can, by answered steps of its own, raise what Redis holds over what is reserved if and only if the initial reservation is already applied and the mode is live: the result that is ignored there |
| `QuotaGuards.GuardedRunsStayReserved` | internal/controlplane/quota.go:96-231 | over every run in which grants are answered and no live warm-up passes its reservation on an applied key, Redis never holds unreserved quota, whatever else fails, is lost or crashes |
| `QuotaGuards.RetryGrantsUnreserved` | internal/controlplane/quota.go:199-225 | the plain retry does it: the first grant fails and is rolled back, the next warm-up finds the idempotency row and grants; no reply lost, no crash, no key lost |
| `QuotaGuards.UnreservedWithoutRepeatedGrant` | internal/controlplane/quota.go:199-225 | without any repeated grant: after the key is lost, a warm-up whose grant fails returns a reservation that is not its own |
| `QuotaGuards.AtMostOneWarmUpInside` | internal/controlplane/quota.go:188-228 | over every run in which nobody takes the refill lock from a warm-up that holds it, at most one warm-up is between lock and unlock |
| `QuotaGuards.WarmUpEntersIff` | internal/controlplane/quota.go:188-197 | whoever is inside, a further warm-up can enter by its own steps if and only if the lock is gone |
| `QuotaGuards.RefillTakesWarmUpLock` | internal/controlplane/quota.go:96-112 | and it does go: a requeued refill claims a warm-up's lock and a second warm-up enters, with no reply lost and nothing expired |
| `QuotaRepair.TopUpShrinks` | internal/controlplane/quota.go:363-393 | a decided top-up strictly shrinks a drift above one chunk, never past zero, and leaves one repair fewer |
| `QuotaRepair.RepairDecidedIff` | internal/controlplane/quota.go:363-393 | with the key present a repair is decided exactly when the sides are more than a chunk apart, in the short direction and with the stated amount |
| `QuotaRepair.MissingKeyTopUp` | internal/controlplane/quota.go:372-379 | a missing key is topped up exactly when something is reserved and the row is 30 seconds old, by at most a chunk and at most the reservation; what Redis accounts for then stays within the reservation if and only if what it held besides left room |
| `QuotaRepair.ReleaseWidensGap` | internal/controlplane/quota.go:390-393 | a decided release in Postgres never shrinks the gap, and widens it unless nothing is reserved |
| `QuotaRepair.CampaignQuota.ApplyQuotaRepair` | internal/controlplane/quota.go:526-581 | a payload without a positive amount changes nothing; a top-up moves only the Redis key, a release only the reservation, clipped at zero |
| `QuotaRepair.CampaignQuota.RepairUntilSettled` | internal/controlplane/quota.go:363-393 | deciding and applying in turn ends with Redis accounting for exactly the reservation after ceil(d / chunk) - 1 repairs for every drift d above one chunk, and at once otherwise |
| `LeaseFencing.FileRoundTrip` | internal/controlplane/operation_lease.go:518-543 | the 8-byte big-endian file decodes to what was written, for every uint64, and every 8-byte file encodes back to itself |
| `LeaseFencing.EpochsFence` | internal/controlplane/operation_lease.go:493-543 | over every run of non-overlapping calls with crashes and failed writes anywhere, issued epochs strictly increase across restarts and no epoch below an issued one validates again |
| `LeaseFencing.NewestValidatesIff` | internal/controlplane/operation_lease.go:504-516 | the newest issued epoch validates exactly while no later call has raised the counter, even one that failed to store |
| `LeaseFencing.OverlappingCallsFence` | internal/controlplane/operation_lease.go:493-543 | with overlapping calls, over every run with crashes and failed writes in which no write lowers the file, no epoch is issued twice and none below an issued one validates again |
| `LeaseFencing.RepeatPossibleIff` | internal/controlplane/operation_lease.go:493-543 | after any run with overlapping calls, stores in any order, crashes and failed writes, a crash followed by orderly calls can issue an epoch a second time if and only if some issued epoch is above what the file holds |
| `LeaseFencing.OverlappingCallsRepeatAnEpoch` | internal/controlplane/operation_lease.go:493-502 | that happens: two overlapping calls can store in the other order and, after a crash, the same epoch is issued twice |
| `LeaseFencing.OwnEpochAcceptedIff` | internal/controlplane/operation_lease.go:493-516 | the epoch a call takes is accepted by its own store if and only if the wrapped counter is below 2^63 |
| `LeaseFencing.ScopesCollideIff` | internal/controlplane/operation_lease.go:277-294 | exactly which pairs of attempts share a dedup scope, for all attempt numbers |
| `LeaseFencing.LaterAttemptsDistinct` | internal/controlplane/operation_lease.go:277-294 | later attempts numbered below 1000 never share one |
| `LeaseFencing.LeaseFencingStore.Next` | internal/controlplane/operation_lease.go:493-502 | one call is exactly the steps of the runs above: raise, store, return; or raise and fail to store |
| `LeaseFencing.LeaseFencingStore.Validate` | internal/controlplane/operation_lease.go:504-516 | accepts exactly the epochs at or above the counter, and anything while it is zero |
| `LeaseFencing.LeaseFencingStore.Persist` | internal/controlplane/operation_lease.go:534-543 | the file holds the encoded value on success and its old content on failure |
| `LeaseFencing.LeaseFencingRegistry.StoreFor` | internal/controlplane/operation_lease.go:435-454 | refuses the nil id; opens one store per replica set and moves no floor |
| `LeaseFencing.LeaseFencingRegistry.Next` | internal/controlplane/operation_lease.go:456-462 | raises the floor of one replica set and of no other |
| `SpendReconciler.BudgetsAfterAnySchedule` | internal/controlplane/global_spend_reconciler.go:120-217 | for non-negative amounts, every split into batches and every interleaving of the debits leaves each routed campaign at max(0, old - total), and the others as they were |
| `SpendReconciler.BudgetsAfterSchedule` | internal/controlplane/global_spend_reconciler.go:174-210 | for amounts of any sign, every interleaving of the debits leaves a routed campaign at max(0, old - what its batches charge), where a batch whose total is not positive charges nothing |
| `SpendReconciler.BatchingIrrelevantIff` | internal/controlplane/global_spend_reconciler.go:174-190 | the split of a list of transactions into batches does not matter for a campaign if and only if its amounts are all non-negative or all non-positive |
| `SpendReconciler.CommitAllClips` | internal/controlplane/global_spend_reconciler.go:29-35 | any sequence of debit scripts leaves a budget at max(0, old - sum) |
| `SpendReconciler.CommitAllKeepsPositive` | internal/controlplane/global_spend_reconciler.go:29-35 | a budget key exists only while something is left |
| `SpendReconciler.BuildBatch` | internal/controlplane/global_spend_reconciler.go:131-143 | one ledger item per transaction in order, with its campaign, its amount and an id of prefix, batch key and transaction id; and a delta for exactly the campaigns that occur, equal to their total |
| `SpendFlush.SpendLedger.UpdateSpendBatch` | internal/domain/store_campaign.go:299-350 | one chunk in one transaction: duplicates and unpaid items are left out, any other error or a failed commit leaves nothing |
| `SpendFlush.FlushChunks` | internal/controlplane/global_spend_reconciler.go:145-160 | chunking does not change what is booked; succeeds if and only if no item fails and every chunk commits, else stops with whole chunks booked |
| `SpendFlush.FlushBooksFirstPayable` | internal/domain/store_campaign.go:299-350 | exactly what is booked, in order: of every id not booked before, the first item that can be paid |
| `SpendFlush.NoneFailsIff` | internal/domain/store_campaign.go:299-350 | a flush fails exactly when an item whose id is not known by then meets an error |
| `SpendFlush.ItemIdsEqualIff` | internal/controlplane/global_spend_reconciler.go:135-135 | two items of a batch share an id if and only if their transactions do; items of different keys never, unless a key contains the separator |
| `SpendFlush.NewTxnsAllBooked` | internal/controlplane/global_spend_reconciler.go:131-162 | when everybody can pay, every transaction is booked once, in order, with its campaign and amount, if and only if all are new under the batch key and differ in id; then what is newly booked for every campaign is the total debited |
| `SpendFlush.ApplyBatch` | internal/controlplane/global_spend_reconciler.go:120-172 | which of the four outcomes occurs and what is booked in each; a committed batch is debited by its totals whatever the ledger left out |
| `SpendFlush.DebitMatchesLedgerIff` | internal/controlplane/global_spend_reconciler.go:131-162 | the debit of a campaign equals what the ledger newly booked for it if and only if its duplicate and unpaid items sum to zero; for non-negative amounts, if and only if none of them has a positive amount |
| `SpendFlush.ApplyTwice` | internal/controlplane/global_spend_reconciler.go:120-172 | a batch applied twice under one key is booked once and debited twice |
| `SpendReconciler.PendingQueue.Enqueue` | internal/controlplane/global_spend_reconciler.go:87-94 | appends; everything enqueued is what was handed over followed by what is pending, and no batch handed over shares a cell with the queue |
| `SpendReconciler.PendingQueue.FlushPending` | internal/controlplane/global_spend_reconciler.go:105-118 | hands over a fresh copy of everything pending, or nothing below the minimum batch size |
| `SpendReconciler.BatchesStayIntact` | internal/controlplane/global_spend_reconciler.go:87-118 | after any sequence of enqueues and flushes, every batch handed over before holds what it held, and everything enqueued is kept in order |
| `NodeScorer.AggregateWindow` | internal/controlplane/node_scorer.go:165-219 | the loops compute the worst p99 or counter, the mean of used buckets, or the pooled rate; nothing for an unknown kind or nothing to use |
| `NodeScorer.SamplesAreUsed` | internal/controlplane/node_scorer.go:165-219 | a window with at least one sample always has something to aggregate |
| `NodeScorer.AggregateWithinBuckets` | internal/controlplane/node_scorer.go:165-219 | for each kind the value lies in the range its buckets span |
| `NodeScorer.MedianSplits` | internal/controlplane/node_scorer.go:593-614 | the median lies between the two halves of a sorted permutation of the finite neighbour values |
| `NodeScorer.PhaseAgreesWithProvenance` | internal/controlplane/node_scorer.go:238-341 | for every input and configuration the reported phase agrees with the provenance of the score: cold start means neighbours exactly when one is finite, own window fails only for an unknown metric kind |
| `NodeScorer.WeightStaysInRange` | internal/controlplane/node_scorer.go:623-689 | over every run a weight that starts in [WeightMin, WeightMax] stays there |
| `NodeScorer.DrainCountsStreak` | internal/controlplane/node_scorer.go:660-670 | the drain counter is exactly the length of the current streak of settled epochs with a low score |
| `NodeScorer.SettledEpochMoves` | internal/controlplane/node_scorer.go:623-689 | over every run a settled epoch moves the weight by at most 0.10, and lowers it only if it and the MinDrainEpochs - 1 epochs before it were all settled and low |
| `NodeScorer.RisesOnlyWhenBoosted` | internal/controlplane/node_scorer.go:623-675 | over every run a weight rises only in a settled epoch above the boost threshold, falls by at most 0.02 on historical data, and is frozen without data |
| `NodeScorer.LowNodeDrainsToFloor` | internal/controlplane/node_scorer.go:660-675 | the weight of a node that stays low, in closed form, down to WeightMin |
| `NodeScorer.ScoreWithinInputs` | internal/controlplane/node_scorer.go:616-621 | over every run the smoothed score stays within the range of the raw values seen |
| `NodeScorer.SmoothMoves` | internal/controlplane/node_scorer.go:616-621 | a raw value moves a positive score by alpha of the distance |
| `NodeScorer.ScoreConverges` | internal/controlplane/node_scorer.go:616-621 | over every run with one raw value the distance of the score to it shrinks by the factor 1 - alpha per epoch |
| `NodeWeights.PhaseIff` | internal/controlplane/node_scorer.go:318-341 | the phase of a node from uptime, samples, missed scrapes, finite neighbours and history, with the shipped defaults |
| `NodeWeights.RawValueByPhase` | internal/controlplane/node_scorer.go:259-291 | what a node is scored by in each phase |
| `NodeWeights.FiniteOnes` | internal/controlplane/node_scorer.go:593-601 | exactly the finite neighbour values are used |
| `NodeWeights.WorstIsOfABucket` | internal/controlplane/node_scorer.go:165-219 | the worst latency and counter are those of a bucket, and no bucket has a worse one |
| `NodeWeights.OneMoreBucket` | internal/controlplane/node_scorer.go:165-219 | one more bucket moves the mean by its distance over the used buckets, one without samples not at all |
| `NodeWeights.OneMoreRate` | internal/controlplane/node_scorer.go:165-219 | one more bucket adds its counts to a rate, or its mean for each sample |
| `NodeWeights.EpochWeight` | internal/controlplane/node_scorer.go:623-689 | the new weight in each phase, without the clamps of the code: kept, capped, lowered by 0.02, lowered by min(step, 0.10) after a long enough low streak, or raised by min(step, 0.10) on a high score, within the bounds |
| `NodeWeights.FirstWeight` | internal/controlplane/node_scorer.go:623-645 | a node without a weight starts at one over the samples it needs, under the caps, and comes up to it by at most 0.02 on history and 0.10 on its own window |
| `NodeWeights.EpochScore` | internal/controlplane/node_scorer.go:297-300 | raw value, provenance and smoothed score of an epoch |
| `RegionDial.NormalizePeerWeights` | internal/controlplane/node_scorer_capacity.go:192-234 | the loops over one buffer compute the specified shares |
| `RegionDial.SharesSumToOneIff` | internal/controlplane/node_scorer_capacity.go:192-234 | for every input and every pair of bounds, exactly when the shares sum to one |
| `RegionDial.ShareLaws` | internal/controlplane/node_scorer_capacity.go:192-234 | with positive bounds shares sum to one, are equal when all weights are zero, and otherwise zero exactly where the weight is |
| `RegionDial.ShareOrder` | internal/controlplane/node_scorer_capacity.go:192-234 | a heavier peer never gets a smaller share |
| `RegionDial.ShareFloor` | internal/controlplane/node_scorer_capacity.go:192-234 | a non-zero weight gets at least minW / (minW + (n - 1) maxW) |
| `RegionDial.FloorAttained` | internal/controlplane/node_scorer_capacity.go:192-234 | that floor is attained, for every n |
| `RegionDial.SharesReachMinimumIff` | internal/controlplane/node_scorer_capacity.go:192-234 | every non-zero weight keeps a share of at least minW, whatever the n weights, if and only if minW + (n - 1) maxW <= 1 |
| `RegionDial.HardSignalDrainsIff` | internal/controlplane/service_node.go:118-167 | in a scoring round a node with a hard signal ends at zero if and only if some node has none; otherwise all keep an equal share |
| `RegionDial.DominantProvenance` | internal/controlplane/node_scorer_capacity.go:262-281 | the loop computes the dominant label |
| `RegionDial.DominantIsWorst` | internal/controlplane/node_scorer_capacity.go:262-281 | the dominant label is one of the given ones and no known one ranks lower |
| `RegionDial.AggregateRegionDialScore` | internal/controlplane/node_scorer.go:418-440 | the loop computes the weighted mean score, the dominant label, and failure for no nodes |
| `RegionDial.ScoreWithinNodes` | internal/controlplane/node_scorer.go:418-440 | a region's score lies between its nodes' lowest and highest |
| `RegionDial.SortByRegion` | internal/controlplane/node_scorer.go:446-446 | sorts the inputs in place by region, keeping every one |
| `RegionDial.ComputeRegionDialResults` | internal/controlplane/node_scorer.go:442-485 | leaves the inputs a region-sorted permutation and returns their specified rows |
| `RegionDial.DialLaws` | internal/controlplane/node_scorer.go:442-485 | one row per region in region order; weights strictly positive, summing to one, at least the floor, in the order of the hysteresis weights |
| `RegionDial.SortedOrderIsUnique` | internal/controlplane/node_scorer.go:446-446 | distinct regions have one sorted order, so the dial does not depend on the order of its inputs |
| `RegionRows.DominantIs` | internal/controlplane/node_scorer_capacity.go:262-281 | the provenance is conservative if any node is, else historical, else neighbour, else own window |
| `RegionRows.UnknownFirstStays` | internal/controlplane/node_scorer_capacity.go:262-281 | a first label that is none of the four is kept |
| `RegionRows.OneMoreNode` | internal/controlplane/node_scorer.go:418-440 | score times weight of a region grows by what one more node adds; a node without a weight counts as one |
| `RegionRows.SharesProportional` | internal/controlplane/node_scorer_capacity.go:192-234 | shares stand in the proportion of the weights brought within the bounds |
| `RegionRows.RegionIsScoredIff` | internal/controlplane/node_scorer.go:442-469 | a region is scored from its nodes if and only if the configuration names window and samples; otherwise its weight is frozen |
| `RegionRows.RegionRow` | internal/controlplane/node_scorer.go:442-485 | score, provenance, smoothed score and hysteresis weight of a region in closed form |
| `ScoringPolicy.PrecomputeSignals` | model/scoring_policy.py:131-142 | the arrays hold each row's proxy and structural signal |
| `ScoringPolicy.ProxySignalIff` | model/scoring_policy.py:58-106 | the proxy signal for all limits as inequalities between products, a ratio over nothing counting as zero |
| `ScoringPolicy.StructuralSignalIff` | model/scoring_policy.py:113-124 | the structural signal likewise |
| `ScoringPolicy.ShippedProxySignalIff` | model/scoring_policy.py:89-106 | the proxy signal under the shipped limits, in whole numbers |
| `ScoringPolicy.ShippedStructuralSignalIff` | model/scoring_policy.py:113-124 | the structural signal under the shipped limits, in whole numbers |
| `ScoringPolicy.ShippedSignalsOverlapIff` | model/scoring_policy.py:89-124 | a proxy row is structural too, under the shipped limits, if and only if it has one user agent or at least 80 events for each |
| `ScoringPolicy.ScoreIsNearestPercent` | model/scoring_policy.py:22-25 | the score is the nearest whole percent, a half rounding up, of the clipped probability |
| `ScoringPolicy.AdjustedBySignal` | model/scoring_policy.py:171-213 | what becomes of a probability by the signals of its row, and the decision made of it |
| `ScoringPolicy.FraudPositiveIff` | model/scoring_policy.py:258-262 | acted on exactly above the pass threshold, blocked exactly above all three |
| `ScoringPolicy.PolicyScoresVector` | model/scoring_policy.py:145-160 | the masked array updates give, for every batch, each row's score under the row-wise adjustment; the input is not changed |
| `ScoringPolicy.SuspectMeansNotPass` | model/scoring_policy.py:163-164 | above the pass threshold is any tier but pass, for all thresholds |
| `ScoringPolicy.BlockThresholdMeansBlockIff` | model/scoring_policy.py:167-168 | above the ivt threshold is the block tier for every probability if and only if no reachable score exceeds the ivt threshold without exceeding the two below it |
| `ScoringPolicy.GuardKeepsPlainRowsUnblockedIff` | model/scoring_policy.py:171-189 | for all ordered tiers the false-positive guard keeps every row without a signal out of the block tier if and only if nothing is blocked at all, or it begins at or below the ivt threshold and its cap rounds to no more than that |
| `ScoringPolicy.ShippedGuardIff` | model/scoring_policy.py:171-189 | with the shipped tiers that is a cap below 0.805 |
| `PolicyCalibration.Confusion` | model/policy_calibrate.py:17-22 | the four counts of labels against predictions |
| `PolicyCalibration.Predict` | model/policy_calibrate.py:90-100 | the vectorised predictions equal the row-by-row decisions of the tuned policy, suspect and block alike |
| `PolicyCalibration.Evaluate` | model/policy_calibrate.py:90-120 | feasible exactly when the row-by-row false-positive rates meet both caps; then the objective of those decisions |
| `PolicyCalibration.ThresholdIsIrrelevant` | model/policy_calibrate.py:86-120 | neither the caps nor the objective depend on the model threshold being searched |
| `PolicyCalibration.ObjectiveRange` | model/policy_calibrate.py:80-120 | the objective lies in [-0.1, 0.9], so every feasible point beats the initial best of -1 |
| `PolicyCalibration.ActedOnIff` | model/policy_calibrate.py:90-100 | which samples a tuning acts on and blocks under the shipped tiers |
| `PolicyCalibration.RatesStep` | model/policy_calibrate.py:25-35 | acting on one more sample raises the recall by its share of the positives, or the false-positive rate by its share of the negatives |
| `PolicyCalibration.RatesAtZero` | model/policy_calibrate.py:25-30 | acting on nothing leaves both rates at zero |
| `PolicyCalibration.OneMoreActedOn` | model/policy_calibrate.py:110-120 | one more sample acted on adds 0.6 of its share of the fraud and 0.3 of its share of the proxy bots, and takes 0.1 of its share of the grey noise |
| `PolicyCalibration.SearchGrid` | model/policy_calibrate.py:86-134 | the nested loops fold the search over the whole grid in loop order |
| `PolicyCalibration.PointsMembers` | model/policy_calibrate.py:86-89 | the points searched are exactly the product of the four lists |
| `PolicyCalibration.SearchFindsFirstBest` | model/policy_calibrate.py:120-134 | the search returns the first maximiser among the feasible points, or none exactly when none is feasible |
| `PolicyCalibration.FirstThresholdDecides` | model/policy_calibrate.py:86-134 | thresholds after the first never change the result |
| `PolicyCalibration.CalibrationIsSound` | model/policy_calibrate.py:55-145 | the returned policy, applied row by row, meets both caps and is the first maximiser of the objective, with the first model threshold of the grid, whenever any grid point meets the caps |
| `PolicyCalibration.NoGridPointBeatsIt` | model/policy_calibrate.py:55-145 | for every grid point whose rates are within the caps the search returns a grid point whose rates are too and whose objective is no lower |
| `PolicyCalibration.Calibrate` | model/policy_calibrate.py:55-145 | returns the configuration of the search's result, or the shipped one when there is none |
| `RateLimiter.StepMatches` | internal/controlplane/ratelimit.go:53-79 | one request keeps the bounded and the unbounded table in agreement and gives the same answer |
| `RateLimiter.EvictionIsInvisible` | internal/controlplane/ratelimit.go:53-79 | when burst <= rate x 600 s, both tables answer alike on every run that never finds the table full after eviction |
| `RateLimiter.ShippedLimitsQualify` | internal/controlplane/ratelimit.go:101-182 | the limits used by default meet that condition |
| `RateBounds.AllowedWithinRate` | internal/controlplane/ratelimit.go:53-79 | over every run, full table and evictions included, a key is allowed at most burst + rate x time requests, when the burst refills within the eviction time |
| `RateBounds.PacedIsServed` | internal/controlplane/ratelimit.go:53-71 | a known caller that keeps 1 / rate apart is always served |
| `RateBounds.BurstIsServed` | internal/controlplane/ratelimit.go:53-71 | of simultaneous requests exactly as many are served as the key has whole tokens; of a new key, its burst |
| `RateBounds.ServedIff` | internal/controlplane/ratelimit.go:53-71 | a request is served exactly when there is room for its key and a token left |
| `RateBounds.OverflowsIff` | internal/controlplane/ratelimit.go:58-66 | a new key is turned away for want of room exactly when the table is full of keys all seen in the last ten minutes |
| `RateLimiter.KeyedRateLimiter.EvictStale` | internal/controlplane/ratelimit.go:73-79 | the loop removes exactly the entries idle for more than ten minutes |
| `RateLimiter.KeyedRateLimiter.Allow` | internal/controlplane/ratelimit.go:53-71 | never more than 50000 entries; answer and new table are those specified |
| `EvictionVisibility.EvictionIsVisible` | internal/controlplane/ratelimit.go:53-79 | the condition is exact: whenever burst > rate x 600 s, for every table of two or more entries, some run that never overflows tells the tables apart |
| `EvictionVisibility.EvictionInvisibleIff` | internal/controlplane/ratelimit.go:53-79 | both directions: for every table of two or more entries, starting empty, all runs that never overflow are answered alike if and only if burst <= rate x 600 s |

## Left out

- The leased delivery path of the relay (region_outbox_relay.go lines 223-236): booking, quorum and ExecuteOp are not part of this model; the direct path is.
- What an event handler does, partial effects of a handler that fails, and dedup outcomes other than confirmed and already confirmed, which relay source ids do not produce.
- The 48-hour expiry of a relay claim key during one attempt; between attempts keys may expire at any time.
- Fairness of the relay: `NoDeliveryIsStuck` gives a schedule that succeeds, not that every schedule does.
- PostgresGate.Gate: a method takes its steps with no other caller in between, up to a select that has to wait; all interleavings are the runs of the state machine.
- int64 wrap-around of money sums in the ledger, the quota and the reconciler; epochs do model 64-bit wrap-around.
- Ledger: conflicts between concurrent transactions appear as aborts only; audit rows, notifications and metrics are not modelled.
- Cancellation fees enter as hundredths of a percent; the conversion from a float percentage is not modelled.
- LedgerService.Service.UpdateOverdraft: the campaigns the query lists are a parameter, any list.
- Ledger rows and balance changes of other settlement code: margin rows, CTV tax rows and direct customer debits (internal/domain).
- Creation of a campaign: checks of brand, template, daypart and schedule; how the autoscaler picks its two campaigns, and that it runs all customers in one transaction.
- Quota: one campaign at a time; drift repair is not interleaved with the refill workers; the float64 absolute value in the drift decision is taken exactly; dead-shard release and quorum observation are not part of this model.
- Convergence of reconciliation adjustments (recon.go): the same delta moves both sides, so no shrinking is claimed; the Redis side of an adjustment is not modelled.
- SpendFlush.ApplyBatch: an error of the Redis commit after the ledger took the batch is not modelled, nor what a caller does with it.
- SpendFlush.SpendLedger.UpdateSpendBatch: the fallback without a database handle, which updates spend only and in no transaction, is not modelled.
- LeaseFencing.EpochsFence: needs non-overlapping calls and counters below 2^63, as the lemmas beside it show.
- LeaseFencing.ScopesCollideIff: int64 wrap-around of the scaled sequence numbers is not modelled.
- Directory creation and the temporary file of a fencing write: a write either replaces the file or leaves it.
- Rounding, NaN and infinities in scores, other than non-finite neighbour values, which are filtered.
- NodeScorer.WeightStaysInRange: needs 0 < WeightMin <= WeightMaxCold <= WeightMax and non-negative steps, which every configuration the code builds satisfies.
- NodeWeights.EpochWeight: needs DrainThreshold <= BoostThreshold, as shipped; with crossed thresholds one epoch can both drain and boost, which only `WeightStaysInRange` and `SettledEpochMoves` cover.
- Metric health curves, capacity scores and the loading of scoring weights: formulas with no law beyond their text.
- RegionDial.SortByRegion: the library sort is an insertion sort here; the order of equal regions is left open in the source.
- The fallback of AggregateRegionDialScore for a zero divisor, which cannot occur.
- RateLimiter: the token bucket library is not part of the repository; a bucket starts full, refills continuously up to its burst, and a refused request leaves it unchanged.
- EvictionVisibility.EvictionIsVisible: a table of one entry is not covered; the shipped size is 50000.
- PolicyCalibration.Calibrate: the four parallel lists are one list of samples, the grid is a parameter, and the report beside the result is not modelled.
- Training of the model, HTTP handlers, authentication, configuration loading, ClickHouse, BPF collectors and protobuf codecs.
