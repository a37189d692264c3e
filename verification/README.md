# Admission and accounting in the gateway, verified

A Dafny model of the part of the gateway that decides who may spend what: the
quota ledgers, the per-request credit machine above them, usage accounting, the
circuit breakers, the local limiter, batch rate admission, the quota-limit cache,
refresh notification, stream tracking, the completion bridge and the router.

Code that changes things step by step is modelled twice. A class holds the same
fields and performs the same loops and updates as the source; every one of its
methods is proved equal to a specification function on values. What the system
promises is then proved about the specification, over every input, every run or
every interleaving. Protocols that drop a lock between steps are state machines
over their atomic steps.

| files | part of the system |
|---|---|
| `QuotaTypes`, `MapSums` | usage records, limits, accounting keys, calendar buckets; sums over maps |
| `RedisLedger`, `RedisScripts`, `RedisInvariant`, `RedisHolds`, `RedisRuns`, `RedisBudgets`, `RedisSettlements`, `RedisRates`, `RedisRateRuns`, `RedisTickets` | the four quota scripts, their loops, and what every run of them keeps: covered leases, budgets, settlement at most once, request and token rates; exact decisions, bookings and lifetimes |
| `MemoryLedger`, `MemoryStore`, `MemoryHolds`, `MemoryRuns`, `MemoryBudgets`, `MemorySettlements`, `MemoryTombstones`, `MemoryRates`, `MemoryRateRuns`, `MemoryUsed`, `MemoryReservations` | the in-process ledger: conservation of held and used amounts, budget safety, settlement at most once, replay protection, request and token rates, lifetimes |
| `AttemptUsage`, `UsageCounters`, `RequestCredit`, `RequestQuota`, `RequestRuns`, `RequestSettlement` | one request over the shared ledger: charges, credit, settlement |
| `Breaker`, `BreakerOpens`, `RedisBreaker`, `Limiter` | circuit breakers and the retire/replace limiter |
| `RateRequests`, `Gcra`, `RateQueues` | batch rate admission, and the draining queues it is measured against |
| `LimitCache`, `LimitCacheOrder`, `HealthNotifier` | LRU cache with write generation; refresh-health notifier |
| `ByteLines`, `UsageMerge`, `StreamTracker`, `StreamEvents`, `SseBridge`, `SseFields` | event-stream tracking and re-framing, and the wire format they read |
| `Routing` | weighted routing and its model index |

Conventions. Times are integers (nanoseconds, or milliseconds in the scripts) and
never run backwards within a run; zero stands for "no time". Request IDs, key IDs
and names are opaque, so numbers stand for them, zero for the empty one.
Accounting keys are datatypes instead of strings. 64-bit saturation and
wrap-around are written out. The order in which Go visits a map is an input or an
arbitrary choice, so results hold for every order. Limits are the validated ones
(gateway/config.go:135), and the scopes of one reservation have distinct
references.

## Model

| member | source | states |
|---|---|---|
| QuotaTypes.SaturatingSum | policy/quota.go:446-457 | the sum of two counts, negatives read as zero, stopping at MaxInt64 |
| QuotaTypes.NormalizeEstimate | store/store.go:485-500 | clamps and folds so that the token total is kept and no later sum saturates; identity on normal records |
| QuotaTypes.NormalizeActual | store/store.go:502-517 | the same for actual usage |
| QuotaTypes.BudgetBucketStart | store/store.go:633-643 | the window start contains the instant and is a multiple of the period, also before the epoch |
| QuotaTypes.ResolveScopes | store/store.go:552-563 | every scope keeps its reference and limit and gets exactly the keys and expiries its configured limits need, of the right kind |
| QuotaTypes.KeysNameTheInstant | store/store.go:573-601 | under one limit two instants share a minute, day, month or window key, held or used, if and only if they fall into the same one |
| QuotaTypes.ExpiriesOutliveBuckets | store/store.go:603-620 | used counters outlive their day, month or window by the grace period |
| RedisScripts.QuotaDatabase.PruneScope | store/redis.go:225-245 | the prune loop equals the specified prune and counts what it dropped |
| RedisScripts.QuotaDatabase.Reserve | store/redis.go:206-398 | the reserve script, loop by loop, equals its specification |
| RedisScripts.QuotaDatabase.TopUpTicket | store/redis.go:399-525 | the top-up script equals its specification |
| RedisScripts.QuotaDatabase.SettleTicket | store/redis.go:526-665 | the settle script equals its specification |
| RedisScripts.QuotaDatabase.PruneLeases | store/redis.go:666-692 | the prune script equals its specification and returns the number of leases dropped |
| RedisLedger.OrderedByScore | store/redis.go:226-227 | leases are visited in score order, equal scores in ID order |
| RedisLedger.LastIsLatest | store/redis.go:386-388 | the last lease in that order has the latest expiry |
| RedisInvariant.PruneKeepsInv | store/redis.go:225-245 | a prune, with or without a protected ID, keeps counters in range and covering their leases |
| RedisInvariant.PruneTakesBackWhatExpired | store/redis.go:226-241 | a held counter loses exactly what the dropped leases held: no decrement clamps |
| RedisInvariant.PruneKeepsUsed | store/redis.go:225-245 | pruning never touches used counters or the request counter |
| RedisInvariant.HeldCountersCoverLiveLeases | store/redis.go:363-394 | under the section invariant a held counter is at least the sum over its live leases, even if the counter key has expired |
| RedisHolds.HoldScopeKeepsInv | store/redis.go:353-395 | a checked hold keeps the section invariant despite key expiry |
| RedisHolds.TopUpScopeKeepsInv | store/redis.go:496-519 | a checked top-up keeps it, growing counters and lease together |
| RedisHolds.SettleScopeKeepsInv | store/redis.go:622-660 | settling keeps it, with or without commit |
| RedisRuns.ReserveKeepsInv | store/redis.go:206-398 | one reserve keeps the database invariant on every outcome |
| RedisRuns.TopUpKeepsInv | store/redis.go:399-525 | one top-up keeps it on every outcome |
| RedisRuns.SettleKeepsInv | store/redis.go:526-665 | one commit or refund keeps it on every outcome |
| RedisRuns.PruneScriptKeepsInv | store/redis.go:666-692 | one background prune keeps it |
| RedisRuns.RunKeepsInv | store/redis.go:1152-1312 | every run of store calls on a forward clock keeps it |
| RedisRuns.HeldCountersNeverFallShort | store/redis.go:206-692 | in every run each active, spend, day and month held counter is at least the sum over live leases |
| RedisRuns.CountersStayInRange | store/redis.go:283-397 | in every run every counter stays between zero and the maximum quota value |
| RedisRuns.TicketsAgreeWithLeases | store/redis.go:505-523 | in every run a ticket and its lease hold the same tokens and spend, under the same keys and expiry |
| RedisRuns.RefusedReserve | store/redis.go:268-352 | a reserve that does not succeed only removes expired leases, tickets and tombstones |
| RedisRuns.RefusedTopUp | store/redis.go:449-494 | the same for a top-up |
| RedisRuns.RefusedSettle | store/redis.go:577-621 | the same for a settlement |
| RedisBudgets.SettleSpends | store/redis.go:622-660 | settling a live lease moves its hold to the used counter and adds only what exceeds it: no release clamps |
| RedisBudgets.RedisBudgetNeverExceeded | store/redis.go:283-352 | in every run with a fixed limit, used plus held is at most the limit plus the overage of commits that used more than their ticket held |
| RedisBudgets.RedisParallelLimitHolds | store/redis.go:322-326 | in every run neither the active counter nor the live leases on it exceed a fixed parallel limit |
| RedisSettlements.RedisSettledAtMostOnce | store/redis.go:577-664 | at most one commit or refund settles an ID per reserve that created its ticket |
| RedisSettlements.RedisSettledIdStaysRefused | store/redis.go:272-275 | for a minute after a settlement every reserve of the ID is a conflict, whatever other calls come in between |
| RedisRates.ReserveDecision | store/redis.go:283-352 | after every run a reserve of a fresh ID is granted exactly if, on every scope, the counter of each configured limit plus the amount stays within it and no counter leaves its range; a refusal names the first limit that lacks room |
| RedisRates.TopUpDecision | store/redis.go:455-494 | the same of a top-up over the token and spend limits of its ticket's scopes, with capacity and missing leases told apart |
| RedisRates.ReserveWithinRates | store/redis.go:327-371 | after every run a reserve that makes a ticket leaves the minute counters of every scope within rpm and tpm, exactly one request and its tokens further |
| RedisRates.TopUpWithinRates | store/redis.go:482-501 | after every run a granted top-up leaves the token counter of every scope within tpm, exactly its tokens further |
| RedisRateRuns.RedisRequestRateHolds | store/redis.go:327-367 | over every run with one request limit on a scope, at most that many tickets are made on it in a minute, and within the minute its counter is exactly their number |
| RedisRateRuns.MinuteCountersExpire | store/redis.go:364-371 | the request and token counters a reserve raises expire with the minute |
| RedisTickets.SettlementBooks | store/redis.go:622-659 | settling a live lease gives back exactly what it held on each held counter, books exactly what was committed on each used counter, and puts the used tokens in place of the held ones in the minute |
| RedisTickets.UsedCountersExpire | store/redis.go:638-658 | a used counter lasts to the end its scope names, or for an hour where that has passed; a lifetime spend counter never ends |
| RedisTickets.SettleDecision | store/redis.go:577-621 | the exact answer of a settlement: settled, already settled, unknown, or over capacity, the last only if a commit would take a counter out of range |
| RedisTickets.SettlementIsRemembered | store/redis.go:661-662 | a settlement is remembered for sixty seconds, to the millisecond |
| RedisTickets.ReserveMakesTicket | store/redis.go:353-397 | a reserve that makes a ticket gives it its lifetime (ten minutes by default, at least a millisecond), the normalized estimate and its fingerprint |
| RedisTickets.TopUpRenewsTicket | store/redis.go:520-523 | a granted top-up renews the lifetime, adds exactly its delta and keeps scopes and fingerprint |
| RedisTickets.ReplayAnswered | store/redis.go:276-282 | a replayed reserve of a live ticket is confirmed exactly if scopes and normalized estimate are the same, a conflict otherwise, and changes nothing |
| RedisTickets.TicketLives | store/redis.go:396 | calls of other IDs leave a ticket alone as long as it lives, and no call finds it afterwards |
| RedisTickets.PruneTakesBackTokens | store/redis.go:225-245 | pruning takes back from a minute counter exactly the tokens of the leases it drops, down to zero |
| MemoryStore.Exceeds | store/store.go:535-550 | decides whether the non-negative values add up past a configured limit, without leaving 64 bits |
| MemoryStore.MemoryQuotaStore.Reserve | store/store.go:141-186 | the method, with its cleanup, checks and holds, equals its ledger step |
| MemoryStore.MemoryQuotaStore.TopUp | store/store.go:200-238 | likewise |
| MemoryStore.MemoryQuotaStore.Commit | store/store.go:240-271 | likewise |
| MemoryStore.MemoryQuotaStore.Refund | store/store.go:273-298 | likewise |
| MemoryStore.MemoryQuotaStore.CleanupExpired | store/store.go:300-321 | the cleanup loops equal the specified cleanup for every visiting order |
| MemoryStore.MemoryQuotaStore.Record | store/store.go:323-370 | list and map updates of a settlement equal the specified ones |
| MemoryStore.MemoryQuotaStore.ReleaseAll | store/store.go:372-381 | the release loop equals the specified release |
| MemoryStore.MemoryQuotaStore.HoldAll | store/store.go:428-437 | the hold loop equals the specified hold |
| MemoryStore.MemoryQuotaStore.Reconcile | store/store.go:383-404 | replaces held by actual tokens in the minute counter, or drops an expired counter |
| MemoryLedger.SaturatingAdd | store/store.go:519-533 | addition clamped to zero and MaxInt64 |
| MemoryRuns.StepInv | store/store.go:141-321 | every store call keeps a held value equal to the sum over live reservations (at most that sum where a scope has only a soft limit) |
| MemoryRuns.HeldEqualsLiveReservations | store/store.go:141-321 | in every run each active, day and month held value, and spend where every scope has a hard cap, equals exactly the sum over live reservations |
| MemoryRuns.EqualIffSumsFit | store/store.go:461-483 | held value and sum agree throughout a run if and only if the sum always fits in 64 bits, caps or not |
| MemoryRuns.HeldNeverExceedsLiveReservations | store/store.go:461-483 | without hard caps the value never exceeds that sum |
| MemoryRuns.ReleasesNeverClamp | store/store.go:474-483 | a live reservation's hold is always there to be released |
| MemoryRuns.SoftSpendCounterSaturates | store/store.go:461-472 | with soft limits only, two reservations exceed 64 bits and leave the spend counter below the sum |
| MemoryBudgets.BudgetNeverExceeded | store/store.go:406-426 | in every run with a fixed limit, used plus held is at most the limit plus the overage of commits that used more than they held |
| MemoryBudgets.RefusalAddsNoHold | store/store.go:167-174 | after every run a refused reserve or top-up leaves exactly what cleanup leaves, so no counter and no sum of holds grows, on any key of any scope |
| MemoryBudgets.ParallelLimitHolds | store/store.go:407-409 | neither the counter nor the number of live reservations that take a slot ever exceeds a fixed parallel limit |
| MemorySettlements.SettlementBooksHold | store/store.go:323-370 | in every run the settlement map and list hold the same IDs in expiry order, at most 65,536 |
| MemorySettlements.CleanupBooks | store/store.go:300-358 | cleanup leaves no expired settlement and no lapsed reservation |
| MemorySettlements.NotLiveIsFinal | store/store.go:158-166 | any call for an ID that is not live, except a reserve that admits it, changes nothing but cleanup |
| MemorySettlements.SettledAtMostOnce | store/store.go:240-321 | in every run, refused and replayed reserves included, at most one commit, refund or expiry settles an ID per successful reserve of it, counting an expiry inside the call that reserves it again |
| MemoryTombstones.SettledIdStaysRefused | store/store.go:323-370 | from the commit, refund or expiry on, a reserve of the ID is a conflict until the replay window ends or 65,536 newer settlements have been recorded |
| MemoryTombstones.SettledIdIsConfirmed | store/store.go:240-298 | under the same conditions a commit or refund of the ID is confirmed if it had been settled and unknown if it had expired |
| MemoryTombstones.ForgottenAfterWindow | store/store.go:342-370 | once the window is over the ID is forgotten |
| MemoryRates.ReserveDecision | store/store.go:406-426 | a reserve of a fresh ID is granted exactly if, on every scope, each of the six configured limits has room for what is booked plus what is asked; a refusal names the first that has not |
| MemoryRates.TopUpDecision | store/store.go:200-238 | the same of a top-up over the four limits on tokens and spend; one that asks for nothing is granted |
| MemoryRates.SettlementReplacesTokens | store/store.go:372-404 | settling a live reservation puts the tokens used in place of the tokens held in each of its minute counters, clamped at zero and 64 bits, and drops a counter past its minute |
| MemoryRateRuns.ReserveWithinRates | store/store.go:410-433 | a reserve that makes a reservation leaves the minute counters of every scope within rpm and tpm, exactly one request and its tokens further |
| MemoryRateRuns.TopUpWithinRates | store/store.go:413-433 | after every run a granted top-up leaves the token counter of every scope within tpm, exactly its tokens further |
| MemoryRateRuns.RequestRateHolds | store/store.go:410-432 | over every run with one request limit on a scope, at most that many reservations are made on it in a minute, counted from calls and answers |
| MemoryRateRuns.RequestRateExact | store/store.go:410-432 | after every such run a reserve lacks room for its request if and only if the minute has seen exactly as many reservations as the limit allows |
| MemoryUsed.CommittedUsageIsBooked | store/store.go:240-271 | over every run, until it ends, a used counter is exactly the sum of what was committed on it, capped at 64 bits |
| MemoryUsed.DayEnds | store/store.go:611-614 | a used counter of a day ends one hour after the day |
| MemoryUsed.EndedIsForgotten | store/store.go:315-320 | a used counter that has ended reads zero after the next cleanup |
| MemoryReservations.ReserveMakesReservation | store/store.go:171-185 | a reserve that makes a reservation holds the normalized estimate for its lifetime, ten minutes by default, and touches no other reservation |
| MemoryReservations.TopUpRenewsReservation | store/store.go:218-237 | a granted top-up adds its delta field by field up to 64 bits and starts the lifetime anew |
| MemoryReservations.ReplayAnswered | store/store.go:161-166 | a replayed reserve of a live ID is confirmed exactly if it asks for what is held on the same references and limits, a conflict otherwise, and changes nothing beyond cleanup |
| MemoryReservations.LivesUntilExpiry | store/store.go:300-308 | cleanup leaves a reservation alone before its expiry and ends it from then on |
| AttemptUsage.NormalizeTokens | gateway/usage.go:149-165 | total becomes exactly the larger of reported total and reported parts, equal to their saturating sum |
| AttemptUsage.Normalize | gateway/usage.go:116-167 | a normal record that loses nothing reported; identity on normal records |
| AttemptUsage.NormalizeIdempotent | gateway/usage.go:116-167 | normalizing twice is normalizing once |
| AttemptUsage.ReconcileReported | gateway/usage.go:172-223 | never below a reported token count, never below the estimate where the report is malformed or missing, exact when well formed |
| AttemptUsage.CacheCountersStand | gateway/usage.go:199-204 | positive cache counters stand as reported, malformed cache writes come from the estimate |
| AttemptUsage.MalformedCacheReads | gateway/usage.go:200-206 | malformed cache reads come from the estimate unless the report details cached input |
| AttemptUsage.ProviderUnitsStand | gateway/usage.go:208-221 | the same for every provider unit |
| AttemptUsage.Billable | gateway/usage.go:60-86 | billed usage is at least what was reported; a token count missing from a partial report equals the estimate |
| AttemptUsage.PartialKeepsEstimatedCounters | gateway/usage.go:369-381 | cache and provider counters of a partial attempt are at least the estimate |
| AttemptUsage.SilentAttemptBilledEstimate | gateway/usage.go:71-82 | an attempt that reports nothing is billed its estimate |
| UsageCounters.CountersReconcile | gateway/usage.go:172-367 | counter by counter, details and modalities too, exactly: a positive report stands, a malformed one comes from the estimate, a missing one does exactly if the token counts were unusable |
| UsageCounters.MalformedTokens | gateway/usage.go:183-197 | malformed token counts come from the estimate alone, and the total covers the three counts and no more |
| UsageCounters.PartialBillsLarger | gateway/usage.go:369-404 | a partial attempt is billed, counter by counter, exactly the larger of report and estimate |
| UsageCounters.CutShortIsChargedEstimatedInput | gateway/usage.go:60-86 | an attempt that reported only output is charged exactly that when complete, and its estimated input when cut short |
| AttemptUsage.Charge | gateway/usage.go:406-413 | a non-negative charge not below the usage |
| AttemptUsage.FirstCompletionDecides | gateway/usage.go:60-86 | the first completion fixes the charge, whatever calls follow |
| AttemptUsage.RunAccumulates | gateway/usage.go:25-86 | in every run charges are non-negative and a running attempt is charged its estimate |
| AttemptUsage.AttemptUsageAccumulator.BeginAttempt | gateway/usage.go:25-47 | adds an entry once, charged its estimate |
| AttemptUsage.AttemptUsageAccumulator.CancelAttempt | gateway/usage.go:49-58 | removes an entry only before completion |
| AttemptUsage.AttemptUsageAccumulator.CompleteAttempt | gateway/usage.go:60-86 | completes an entry once |
| AttemptUsage.AttemptUsageAccumulator.Total | gateway/usage.go:88-101 | each dimension is the exact sum of the charges capped at MaxInt64, in any visiting order |
| RequestCredit.ConsumeSplitsSpend | policy/quota.go:459-477 | spend splits exactly into credit used and top-up, and no credit is lost |
| RequestCredit.ConsumeSplitsTokens | policy/quota.go:459-477 | tokens split exactly if and only if the wanted input is not negative (or is the least int64 and fully covered) |
| RequestCredit.NegativeInputHoldsNothing | policy/quota.go:465-469 | a negative input with a huge output tops up nothing |
| RequestCredit.SettlementDelta | policy/quota.go:433-444 | exactly what brings the reservation up to the actual tokens and spend |
| RequestCredit.ReservationLifetime | policy/quota.go:402-424 | the larger of the configured time and ten seconds plus all timeouts (thirty seconds by default) times tries, capped without overflow |
| RequestQuota.Quota.ReserveAttempt | policy/quota.go:78-107 | reserving an attempt performs the specified top-up and state change, or nothing on refusal |
| RequestQuota.Quota.ReleaseAttempt | policy/quota.go:108-120 | releasing turns the estimate into credit |
| RequestQuota.Quota.ReconcileAttempt | policy/quota.go:121-156 | reconciling tops up the overage or credits the unused part |
| RequestQuota.Quota.Settle | policy/quota.go:241-273 | a refund, or the top-up asked for followed by the commit whether or not it was granted |
| RequestRuns.TopUpGrowsTicket | store/store.go:200-238 | a granted top-up adds exactly its delta to the ticket, a refused one nothing |
| RequestRuns.ForeignKeepsTicket | store/store.go:141-298 | calls of other requests leave a ticket alone unless it expires |
| RequestRuns.ReservedConserves | policy/quota.go:91-103 | a started attempt moves credit into its estimate and reserves only the rest |
| RequestRuns.ReconciledConserves | policy/quota.go:128-154 | a reconciled attempt trades its estimate for its charge |
| RequestRuns.ReservedTwice | policy/quota.go:84-86 | reserving an attempt in flight again changes nothing |
| RequestRuns.CreditConserved | policy/quota.go:73-156 | over every interleaving with other requests, refusals and expiry: reserved = estimates in flight + credit + charges of closed attempts, and a live ticket holds exactly that |
| RequestSettlement.NoTopUpNeeded | policy/quota.go:258-265 | if attempts in flight were charged within their estimates, settlement asks for nothing |
| RequestSettlement.ReserveAdmits | policy/quota.go:57-72 | a granted reservation leaves an empty live ticket |
| RequestSettlement.RequestSettlesWithinReservation | policy/quota.go:57-227 | the same from admission on, over every run |
| RequestSettlement.OverageOnlyAfterRefusal | policy/quota.go:258-272 | a settlement's commit exceeds what is held, on any key, only after its top-up was refused |
| RequestSettlement.SettlementOverageOnlyAfterRefusal | policy/quota.go:57-273 | the same from admission on, over every run of the request |
| Breaker.LocalBreaker.AllowAttempt | policy/attempt.go:623-647 | admits or denies as specified and records the admission |
| Breaker.LocalBreaker.FailAttempt | policy/attempt.go:654-692 | records a failure as specified |
| Breaker.LocalBreaker.SuccessAttempt | policy/attempt.go:699-721 | records a success as specified |
| Breaker.LocalBreaker.PruneStates | policy/attempt.go:730-751 | every 256th outcome drops exactly the idle states, in any visiting order |
| Breaker.WithinRetention | policy/attempt.go:637-645 | inside the retention of an attempt the pruned table treats its route as if it were alone and never pruned |
| Breaker.AdmissionRetainsRoute | policy/attempt.go:730-751 | no call drops a route with an attempt inside its retention |
| Breaker.AdmissionsIncrease | policy/attempt.go:632-636 | admission times of a route strictly increase |
| Breaker.NewestEvidenceDecides | policy/attempt.go:663-720 | the newest admission heard of decides which evidence is larger, and a newest success means closed |
| Breaker.CompletionOrderIsIrrelevant | policy/attempt.go:654-721 | the same outcomes in any order, at any times, agree on that |
| Breaker.StaleOutcomesLeaveNoTrace | policy/attempt.go:664-714 | a run with a stale outcome goes on exactly as if it had never arrived: an older success never closes, an older failure never opens |
| Breaker.TableFollowsEvidence | policy/attempt.go:623-751 | in the pruned table, inside a retention, admissions strictly increase and the newest evidence decides, whatever other routes do |
| Breaker.CooldownIsNotExtended | policy/attempt.go:671-677 | while open, failures and older successes never move the end of the cooldown |
| BreakerOpens.CountsBelowThreshold | policy/attempt.go:664-691 | below the threshold every failure newer than the last success counts and the route stays closed |
| BreakerOpens.OpensAtThreshold | policy/attempt.go:678-691 | the failure that reaches the threshold (at least one) opens the route until its time plus the cooldown (one second by default) |
| BreakerOpens.DeniedUntilCooldownEnds | policy/attempt.go:623-692 | from then on, whatever arrives short of a newer success, an attempt is denied exactly until that instant |
| BreakerOpens.TableDeniesUntilCooldownEnds | policy/attempt.go:623-692 | the same in the pruned table, inside the retention of an attempt |
| BreakerOpens.ForgetsExactlyIdleRoutes | policy/attempt.go:730-751 | a route is forgotten exactly at a 256th outcome, if it is closed, out of retention and without an outcome for ten minutes |
| RedisBreaker.BreakerHash.Allow | store/redis.go:107-125 | the allow script equals its specification |
| RedisBreaker.BreakerHash.Fail | store/redis.go:126-175 | the fail script equals its specification |
| RedisBreaker.BreakerHash.Success | store/redis.go:176-205 | the success script equals its specification |
| RedisBreaker.SameOrder | store/redis.go:118-120 | admissions compare alike although ties are broken by a nanosecond in one and a microsecond in the other |
| RedisBreaker.BreakersAgree | store/redis.go:107-205 | driven by the same calls on a whole-millisecond clock both breakers admit and deny the same attempts |
| RedisBreaker.FreshBreakersAgree | store/redis.go:107-205 | the same from two fresh breakers |
| Limiter.LimiterCell.AcquireSlot | policy/attempt.go:761-778 | takes a slot, reports full, or reports retirement |
| Limiter.LimiterCell.ReleaseSlot | policy/attempt.go:780-787 | gives a slot back |
| Limiter.LimiterCell.Retire | policy/attempt.go:789-797 | retires only an idle limiter without holders |
| Limiter.RunInv | policy/attempt.go:334-373 | every interleaving of load-or-store, acquire, release, retire and compare-and-delete keeps the protocol invariant |
| Limiter.RetiredHasNoHolders | policy/attempt.go:789-797 | a retired limiter has no holders; a limiter not retired is the published one of its key |
| Limiter.LimitHolds | policy/attempt.go:334-355 | holders of a key never outnumber its limit; a key without a positive limit never gets a limiter |
| Limiter.AcquiresIffBelowLimit | policy/attempt.go:761-778 | over every interleaving a try of a limiter in use takes a slot if and only if fewer threads than the limit hold one of its key |
| Limiter.RetiresIffIdle | policy/attempt.go:789-797 | a visit retires a limiter if and only if no thread holds a slot of it and it was not tried or released after the cutoff |
| Limiter.ReleaseNeverClamps | policy/attempt.go:780-787 | the guard against a negative count never fires |
| Limiter.NeverRevived | policy/attempt.go:342-349 | a retry never meets an unpublished retired limiter again |
| RateRequests.NormalizeRequests | store/rlm.go:122-144 | refused if and only if two active debits of a key disagree on the limit; otherwise one debit per key, in first-use order, with the saturated total |
| RateRequests.MergesUnique | store/rlm.go:122-144 | there is only one merged batch |
| Gcra.RateStore.AllowDebits | store/redis.go:38-63 | the two loops equal the specified script; a refusal names the first debit that does not conform |
| Gcra.RateStore.AllowBatch | store/redis.go:969-1010 | the call equals its specification over the merged batch; a refused batch changes no key |
| Gcra.AdmittedDemand | store/rlm.go:129-139 | an admitted batch debits each key exactly what its requests ask in total |
| Gcra.ExpiryChangesNoDecision | store/redis.go:47-61 | over every run the expiry set on keys changes no decision |
| Gcra.WindowBound | store/redis.go:44-61 | in any window the cost admitted on a key is at most burst + rate * length / period |
| Gcra.DemandWindowBound | store/redis.go:969-1010 | over every run of request batches from the empty store, what admitted requests asked of a key in any window is at most burst + rate * seconds * 10^9 / period, the period in nanoseconds, with the rate for a missing burst and sixty seconds for a missing period |
| RateQueues.AdmitsAsQueues | store/redis.go:38-63 | over every run, whatever limits and clock readings, AllowBatch admits exactly the batches that queues of work admit: a key drains one second of work a second and holds at most burst * period / rate seconds |
| RateQueues.IdleKeysAdmit | store/redis.go:44-55 | a batch with agreeing limits that asks at most the burst of every key is admitted if its keys have been idle for as long as a burst takes to drain |
| Gcra.DuplicateKeysOverspend | store/redis.go:38-55 | with a key named twice the bound fails, so merging is needed |
| LimitCache.CachedQuotaLimitStore.LookupKey | store/limits.go:253-264 | a hit moves the key to the front, an expired entry is removed |
| LimitCache.CachedQuotaLimitStore.FinishGet | store/limits.go:273-284 | publishes a source read only under the generation it started with |
| LimitCache.CachedQuotaLimitStore.FinishPut | store/limits.go:298-309 | publishes a write under a new generation |
| LimitCache.CachedQuotaLimitStore.InsertEntry | store/limits.go:313-324 | inserts and evicts from the back |
| LimitCache.CachedQuotaLimitStore.DropExpired | store/limits.go:326-334 | walks from the back and removes what has expired |
| LimitCache.PruneDropsExpired | store/limits.go:326-334 | nothing expired is left after the walk |
| LimitCache.InsertAgrees | store/limits.go:313-324 | list and map stay in step within capacity, and only the new entry is new |
| LimitCacheOrder.LookupAnswers | store/limits.go:253-264 | a lookup hits if and only if the key is cached and its time is not over, answers the cached value and makes the key the most recent |
| LimitCacheOrder.GetAsksSourceIffMissed | store/limits.go:248-270 | a Get asks the source exactly if its lookup misses |
| LimitCacheOrder.WriteIsPublished | store/limits.go:298-324 | a write is cached for its time to live, in front of the other entries whose time is not over in order of use, as many as the capacity allows |
| LimitCacheOrder.ReadIsPublishedUnlessOvertaken | store/limits.go:273-324 | a source read is published in the same way if no write was published since it began, and not at all otherwise |
| LimitCache.ListAndMapAgree | store/limits.go:313-342 | list and map agree within capacity in every run, however Puts overlap |
| LimitCache.CoherentIffPublishedInOrder | store/limits.go:288-311 | the cache equals the source on every key without a Put in flight, after every step, if and only if each Put that publishes last on its key publishes what the source holds |
| LimitCache.CacheStaysCoherent | store/limits.go:248-311 | if Puts of the same key never overlap, every cached entry without a Put of its key in flight equals the source, despite stale Gets and Puts of other keys |
| LimitCache.OverlappingPutsGoStale | store/limits.go:295-309 | two Puts of one key that publish in the other order than they wrote break it |
| HealthNotifier.StepInv | store/limits.go:528-560 | what is not delivered is on its way, after every step |
| HealthNotifier.NoNotificationIsLost | store/limits.go:403-560 | whenever everything is quiet, the installed hook's last call saw the current generation and health |
| HealthNotifier.NotifierComesToRest | store/limits.go:514-560 | left alone after all signals, the notifier comes to rest having delivered |
| UsageMerge.Counter | proxy/stream.go:250-255 | the larger count, or -1 if either is malformed |
| UsageMerge.OnlyTheSetOfSnapshotsMatters | proxy/stream.go:224-246 | merging well-formed snapshots is independent of order and repetition |
| UsageMerge.RestDependsOnlyOnTheSet | proxy/stream.go:224-242 | every field but the total is independent of order and repetition for all snapshots, malformed or not |
| UsageMerge.TotalSettledIff | proxy/stream.go:243-245 | the total is independent of order and repetition if and only if some total is malformed, or no input or output is, or the well-formed parts add up to no more than the largest total |
| UsageMerge.TwoSnapshots | proxy/stream.go:243-245 | that condition for two snapshots |
| UsageMerge.MalformedMergeDependsOnOrder | proxy/stream.go:243-245 | a pair whose total depends on the order |
| UsageMerge.MalformedStaysVisible | proxy/stream.go:248-255 | a counter ends negative if and only if some snapshot was malformed there |
| UsageCounters.EveryCounterSettles | proxy/stream.go:224-255 | every counter of the merged usage, in details, modalities and provider units too, is the largest one reported, or -1 if one was malformed |
| StreamTracker.StreamUsageTracker.FeedBytes | proxy/stream.go:43-67 | the feed loop equals the specified feed |
| StreamTracker.StreamUsageTracker.FinishStream | proxy/stream.go:69-81 | finishing equals the specified finish |
| StreamTracker.StreamUsageTracker.HandleLine | proxy/stream.go:95-121 | one line equals the specified line |
| StreamTracker.StreamUsageTracker.FinishEvent | proxy/stream.go:123-139 | one event equals the specified event |
| StreamTracker.SeenIffCutsShort | proxy/stream.go:43-67 | the tracker holds what the bytes so far say after every chunk if and only if no chunk ends beyond the bound inside a line |
| StreamTracker.ChunksCutShortDoNotMatter | proxy/stream.go:43-139 | chunks that cut no line beyond the bound end with the usage and completion flag of reading the whole stream line by line, however long its lines |
| StreamTracker.ChunksDoNotMatter | proxy/stream.go:43-139 | in particular, if no line exceeds the bound, no chunking matters |
| StreamTracker.LongLinesDependOnChunks | proxy/stream.go:55-62 | a longer line that is cut beyond the bound takes the next event with it, and in one chunk does not |
| StreamTracker.MemoryIsBounded | proxy/stream.go:55-62 | pending line and event never exceed the bound, for any input |
| StreamEvents.TrackerMergesEvents | proxy/stream.go:43-139 | however the stream is cut short of the bound, the finished tracker holds the merge of the snapshots of its events in order (blank-line blocks, data contents joined by line feeds, none longer than a mebibyte or blank), and is complete if and only if one of them is terminal |
| StreamEvents.OnlySnapshotsMatter | proxy/stream.go:123-139 | two streams whose events carry the same set of well-formed snapshots leave the same usage |
| StreamEvents.LinesArePieces | proxy/stream.go:50-66 | the lines are the pieces of the stream between line feeds |
| ByteLines.TrimsSpaceAtBothEnds | proxy/stream.go:128-131 | trimming takes exactly the ASCII white space at both ends |
| SseBridge.Split | proxy/bridge.go:291-303 | the splitting loop equals the specified lines |
| SseBridge.NoByteIsLost | proxy/bridge.go:291-303 | the lines concatenate to the event |
| SseBridge.SplitEnding | proxy/bridge.go:305-314 | content and terminator make up the line |
| SseBridge.Bridge | proxy/bridge.go:248-289 | the two passes equal the specified conversion |
| SseBridge.ReframedEvent | proxy/bridge.go:248-289 | events without data or with the end marker pass unchanged; another fails exactly if its conversion does; a converted one parses back to exactly the converted payload in one data field and keeps all other lines in order |
| SseFields.DataFieldIff | proxy/bridge.go:316-328 | a line is a data field if and only if it is `data` alone or `data:` and the payload with at most one space between |
| SseFields.BlankIff | proxy/bridge.go:242-246 | a line is blank if and only if only its ending is there |
| SseFields.PassesUnchanged | proxy/bridge.go:261-267 | events without data, with blank data or with the data `[DONE]` pass unchanged |
| SseFields.EventIsUpToBlankLine | proxy/bridge.go:226-240 | the next event is the lines up to and including the first blank one, and the stream is unfinished if and only if there is none |
| SseBridge.CompletionBridge.ReadEvent | proxy/bridge.go:226-240 | reads up to and including the next blank line, or all that is left with the source's fault |
| SseBridge.CompletionBridge.Read | proxy/bridge.go:192-222 | a read takes a piece off what remains and reports a fault only when nothing precedes it |
| SseBridge.CompletionBridge.ReadThrough | proxy/bridge.go:192-222 | for any buffer sizes the output is a prefix of the concatenated conversions, and all of it once a fault arrives |
| Routing.RebuildCatalog | gateway/config.go:360-384 | the index answers every model as a scan of the routes would |
| Routing.IndexMatchesScan | gateway/gateway.go:195-205 | with distinct names, index and scan agree for every pair of visiting orders |
| Routing.RotateWeighted | gateway/gateway.go:250-295 | the loops equal the specified rotation, with 64-bit saturation, and the group starts at the route whose slice of the running weights the hash modulo the total falls into, and at no other |
| Routing.FirstInProportion | gateway/gateway.go:254-290 | for every route exactly as many of the hashes below the total as its weight put it first, if and only if the weights do not saturate |
| Routing.Resolve | gateway/gateway.go:206-247 | the loops equal the specified resolution, including both refusals |
| Routing.ResolvedRoutes | gateway/gateway.go:206-247 | exactly the accepted routes, in non-increasing priority, the routes of each priority rotated by weight from name order; without one a refusal, as unsupported exactly if some route gave a reason |

## Left out

- HTTP serving, ingress decoding, headers, metrics, tracing, logging and configuration parsing: plumbing around the modelled core.
- Provider adapters, JSON decoding, payload conversion, tokenizers and float pricing: opaque functions here; a price is some non-negative 64-bit value.
- Context cancellation and deadlines: a cancelled call is one that does not happen; a renewal is a top-up of nothing.
- Clock sampling inside one call: the in-process store reads the clock again while it adds to a counter; the model uses one reading per call. In the Redis store the caller's clock sample equals the script's.
- Calendar months: the clock reading carries its month and the start of the next one.
- Key strings, JSON encodings and the SHA-256 fingerprint: injective, so datatypes stand for them. Malformed counter strings in Redis are out, since only the scripts write counters.
- Redis expiry: a key is gone once the clock is past its expiry, before a script can see it.
- MemoryLedger.TrimSettlements: stops when the list is empty; the source would spin there, but the list holds exactly the IDs of the map in every run.
- Equality of the minute counter with live reservations: the source deliberately lets it drift across minutes.
- Equivalence of the in-process and Redis ledgers: they answer a replayed reserve after a top-up differently (store/store.go:162 against store/redis.go:278).
- RequestRuns.CreditConserved: below saturation, for attempt IDs that are not reused once their attempt is closed or dropped, with estimates that are not negative; RequestCredit.NegativeInputHoldsNothing shows why the last is needed.
- StreamTracker.ChunksCutShortDoNotMatter, StreamEvents.TrackerMergesEvents: what a stream yields once a chunk has cut a line beyond the bound is not described further than StreamTracker.LongLinesDependOnChunks shows; trimming removes ASCII space only.
- SseBridge.ReframedEvent: for conversions that yield one line without surrounding space, as encoded JSON is.
- RedisBreaker.BreakersAgree: while no key has expired or been pruned, with whole-millisecond cooldowns.
- Gcra.WindowBound, RateQueues.AdmitsAsQueues: over the reals, so floating-point rounding of arrival times is not captured; a batch with a single key goes to a library in the source and is modelled by the same script.
- LimitCache.CacheStaysCoherent: without an outside writer to the source, and without a source that reports an error for a Put it has written; such a Put ends without publishing.
- HealthNotifier.NoNotificationIsLost: before the store is closed.
- The response size limiter, the slot-lease scripts, the in-process rate store, snapshot refresh contents, the retry loop's error classification and ACL filters: they would add only easy members or rest on libraries that are not part of this model.
