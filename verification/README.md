# Verified model of the builder service, the executor and the authorization workflow

This project models, in Dafny 4.11, the parts of the repository whose correctness rests on several
functions at once, and proves what they promise.

**Events to reports** (`EventTables`, `EventSteps`, `EventInvariant`, `EventSafety`, `EventRuns`,
`EventService`). The durable inbox, the leased evaluation jobs, the one selected subscription per
Maker, the report-nonce allocator and the delivery state machine are maps of rows. Each SQL
transaction is one pure step over them; the evaluator, the broadcaster, the reconciler, the clock and
random ids are arguments of the steps. A run is any sequence of steps by any number of workers,
browsers and sources, so a crash is simply a run that goes on without a worker's next step. A call to
the broadcaster is a row of its own that may return, be recorded, or be lost with its worker.
`EventService.EventStore` is the same service as an object over mutable tables; every method is
proved to be exactly its step.

**The log source and the worker** (`LogSource`, `EventWorker`). One poll is the cursor loop of the
code over a chain that may differ from poll to poll, with logs of a range answered in any order. A
block that was recorded stays tracked until it is too deep or the history is full, so the first poll
that finds another block at its height reports its events. The worker marks, ingests and saves its
cursor, with other transactions in between; any call may throw and the process may stop anywhere.

The inbox does not always mirror the chain. For every completed round, whatever rounds were cut short
before it, it is proved exactly when an event stands without being on the chain, and when an event of
the chain does not stand: in terms of what the rounds before left standing, what the cursor tracks and
what the chain has, all known before the poll. A reading that ends a source for good is treated the
same way: the error branch stores an empty cursor object when the process holds no copy of its
cursor, and so does a poll that a shutdown aborts; a process that reads it rejects it on every poll. So
one failed read of the cursor after a restart overwrites a good one, and it is proved which sources can
still be lost.

**Arithmetic** (`SquareRoot`, `Volatility`, `PriceText`, `Concentration`, `Rollover`,
`CurvePreview`, `CurveSafety`, `CurveMath`, `CurveScenarios`). The Newton loops compute exact roots; the
volatility is bounded on both sides against the real root of the sum of squared returns; price bounds
are the tightest integers inside the exact range for either token order; a rollover never leaves the
policy band; the concentrated liquidity never exceeds the exact root and is close to it; constant-
product trading never loses value, in one input or in any number of parts; scenarios stay inside
their caps.

**Authorization** (`Authorization`, `GuardReport`). The report is the greatest one both policies
allow, loosens nothing when a limit is lowered, is accepted by the public schema under an exact
condition, and survives the envelope clamp.

**Requests and transactions** (`Canonical`, `CanonicalText`, `Journal`, `Controller`,
`ControllerRuns`, `Endings`, `Executor`, `Autopilot`). The canonical text identifies a request
(strings as in section 7 of RFC 8259, numbers as the texts ECMAScript gives them). The journal saves
signed bytes before sending them. The controller and the autopilot are durable effects with guards;
the methods of `DurableSender`, `ExecutionController` and `Pilot` follow the code step by step, with
`if *` where the process may stop or the chain may answer anything, and are proved to perform only
runs of those effects. Stored results are true in every reachable store.

Not every resume ends its request. What the chain, the price feed and the clock answer during one call
is a record (`Endings.Answers`), and a call that is not cut off is proved to end its request exactly
when `Endings.Endable` holds of the store before it and these answers. The answers under which it
always ends are named, and so is each family under which it never does: a confirmed ship or rebalance
whose strategy is not active, a strategy that is on the chain before its ship is signed (until its
deadline), a swap that cannot be prepared, a nonce consumed outside, a risk that cannot be read, and a
risk stop that is not seen docked.

Every rollover the autopilot counts has in its session's plan the compiled form of a replacement
inside the policy band, and is counted once. As long as no strategy comes back to a plan, budget and
cooldown hold over every run, with readings that may be stale by the time they are used. A stored
intent is refused for good exactly once its strategy's deadline has passed, and it stays pending.

Hashes and digests stand for the content they are computed from. `Wrappers` holds the result types.

## Model

| member | source | states |
|---|---|---|
| EventService.EventStore.CancelUnsentEventWork | packages/builder-service/src/event-control.ts:7-15 | pending and running jobs of the subscriptions become cancelled, pending reports failed, and every other row, a broadcast one included, stays |
| EventService.EventStore.PersistDraftChange | packages/builder-service/src/draft-persistence.ts:24-45 | succeeds exactly for the owner's draft at the expected revision, and then bumps it and stops the draft's live subscriptions with their unsent work |
| EventService.EventStore.Enable | packages/builder-service/src/event-delivery.ts:127-168 | the first failing check gives the error; an equal enabled selection is returned unchanged; otherwise the owner's other selections stop and this one takes over with the next generation |
| EventService.EventStore.Stop | packages/builder-service/src/event-delivery.ts:184-195 | an owned subscription ends stopped with its unsent work cancelled, twice is the same as once |
| EventService.EventStore.Ingest | packages/builder-service/src/event-delivery.ts:196-222 | a canonical event is a duplicate that changes nothing; otherwise the loop over the query's rows queues what the step queues, or the whole transaction rolls back |
| EventService.EventStore.ScheduleHealthEvaluations | packages/builder-service/src/event-delivery.ts:100-126 | one job for each subscription whose outage state turned, all or nothing |
| EventService.EventStore.MarkReorg | packages/builder-service/src/event-delivery.ts:417-431 | changes something exactly when the event was canonical, and then performs the reorg step |
| EventService.EventStore.RevokeConsent | packages/builder-service/src/automation.ts:134-139 | every live subscription of the consent stops, with its unsent work |
| EventService.EventStore.WithdrawTemplate | packages/builder-service/src/templates.ts:164-171 | every enabled subscription pinned to the template pauses, with its unsent work |
| EventService.EventStore.ClaimEvaluation | packages/builder-service/src/event-delivery.ts:223-236 | refuses a lease outside the bounds; claims exactly a claimable job |
| EventService.EventStore.CompleteEvaluation | packages/builder-service/src/event-delivery.ts:257-305 | reports a reorged event and a lost lease as such; issues a report exactly when a nonce is allocated |
| EventService.EventStore.IssueReport | packages/builder-service/src/event-delivery.ts:278-300 | nonce, report row, last-report columns and job change together as one step |
| EventService.EventStore.ClaimDelivery | packages/builder-service/src/event-delivery.ts:309-342 | hands a report over exactly when it is due, first of its owner, on a canonical event and its subscription fresh, and appends exactly one call |
| EventService.EventStore.SettleCall | packages/builder-service/src/event-delivery.ts:346-358 | recording a call's outcome touches only a row still in broadcast |
| EventService.EventStore.Reconcile | packages/builder-service/src/event-delivery.ts:378-416 | a verdict closes a broadcast row, asks for at most one re-evaluation, and returns the stored status |
| EventRuns.Reachable | packages/builder-service/src/event-delivery.ts:61-68 | every run from empty tables satisfies the whole invariant |
| EventRuns.AtMostOneEffectiveCall | packages/builder-service/src/event-delivery.ts:307-359 | of any two calls for one report in any run, one ended as definitely not sent |
| EventRuns.EveryStepMoves | packages/builder-service/src/event-delivery.ts:307-431 | accepted and failed never change; a broadcast row changes only by its own call's outcome or the reconciler, and returns to pending only on a definitely-not-sent outcome |
| EventRuns.ClosedForGood | packages/builder-service/src/event-delivery.ts:71-78 | a closed report keeps its row through any further run |
| EventRuns.OneBroadcastPerOwner | packages/builder-service/src/event-delivery.ts:318-325 | a report in broadcast is its owner's oldest open one, so there is only one |
| EventRuns.NoncesHandedOverIncrease | packages/builder-service/src/event-delivery.ts:278-294 | in handover order the nonces of one owner and strategy strictly increase from report to report |
| EventRuns.EveryHandoverIsBounded | packages/builder-service/src/event-delivery.ts:278-294 | every nonce handed over, the first of a lane included, is its report's, above the evaluator's floor and the binding's nonce, within uint64 |
| EventRuns.AllocatorIsExact | packages/builder-service/src/event-delivery.ts:278-294 | the allocator gives the least nonce above floor and sequence, and none exactly when uint64 is exhausted |
| EventRuns.CompletionIssuesOrNot | packages/builder-service/src/event-delivery.ts:257-305 | completing an evaluation issues one report or changes nothing but its job |
| EventRuns.ReportsComeFromLeaseHolders | packages/builder-service/src/event-delivery.ts:237-306 | a new report row comes from the live lease holder completing its job on a canonical event with an enabled subscription |
| EventRuns.ReorgIsFinal | packages/builder-service/src/event-delivery.ts:307-431 | after a job is orphaned its row never changes, no report is issued for it and none of its reports is handed over again, whatever follows |
| EventRuns.MarkingOrphans | packages/builder-service/src/event-delivery.ts:417-431 | marking orphans every job of the event and leaves none of its reports pending |
| EventRuns.IngestReachesSubscribers | packages/builder-service/src/event-delivery.ts:196-222 | an accepted event is canonical, keeps all earlier jobs, gives every subscription it concerns a live job and adds nothing else |
| EventRuns.OneLeaseHolder | packages/builder-service/src/event-delivery.ts:223-236 | in every reachable state at most one job per subscription holds a live lease |
| EventRuns.OneReportPerJob | packages/builder-service/src/event-delivery.ts:257-305 | in every reachable state a job has at most one report, over expiry, reclaim and late completion |
| EventRuns.OneLiveJobPerEvent | packages/builder-service/src/event-delivery.ts:209-213 | in every reachable state a subscription has at most one live job per event |
| EventRuns.SelectionIsCurrent | packages/builder-service/src/event-delivery.ts:127-168 | in every reachable state an owner has one enabled subscription at most, at its draft's current revision, and unfinished jobs belong to enabled subscriptions |
| EventRuns.RepeatsNeedACause | packages/builder-service/src/event-delivery.ts:263-271 | consecutive reports of a subscription with the same hash follow a failure, or an acceptance with a chain change |
| EventSafety.ClaimDeliveryKeeps | packages/builder-service/src/event-delivery.ts:309-342 | claiming a delivery keeps the whole invariant |
| EventSafety.SettleCallKeeps | packages/builder-service/src/event-delivery.ts:346-358 | recording any outcome keeps the whole invariant, the return to pending included |
| EventSafety.EnableKeeps | packages/builder-service/src/event-delivery.ts:127-168 | enabling keeps the whole invariant |
| EventSafety.CompleteEvaluationKeeps | packages/builder-service/src/event-delivery.ts:257-305 | completing an evaluation keeps the whole invariant |
| EventSafety.MarkReorgKeeps | packages/builder-service/src/event-delivery.ts:417-431 | marking a reorg keeps the whole invariant |
| EventSafety.ReconcileKeeps | packages/builder-service/src/event-delivery.ts:378-416 | reconciling keeps the whole invariant |
| LogSource.Poll | packages/builder-service/src/event-adapters.ts:193-253 | fails exactly on a stale head or the empty cursor; otherwise emits the chain's logs from the start block to the end block in order, reports exactly the ids of changed tracked blocks, records every scanned block with logs and forgets no entry below the lowest changed block before it is too deep, unless the history is full |
| LogSource.Scan | packages/builder-service/src/event-adapters.ts:226-245 | at most five ranges, never past the safe head, with all logs and one entry per event-bearing block |
| LogSource.CheckHistory | packages/builder-service/src/event-adapters.ts:207-224 | finds the lowest changed tracked block and exactly the ids of the changed ones |
| LogSource.GroupReply | packages/builder-service/src/event-adapters.ts:232-243 | one entry per block of the reply, holding exactly the ids of its logs |
| LogSource.SortedIsUnique | packages/builder-service/src/event-adapters.ts:249 | a sorted permutation of strictly ascending events is that sequence |
| LogSource.PollAgreesWithChain | packages/builder-service/src/event-adapters.ts:207-249 | after a poll every remembered block at or below the safe head has its current hash, the scan starts at or below every changed block, and nothing emitted is above the safe head |
| LogSource.EntryFate | packages/builder-service/src/event-adapters.ts:207-249 | on any chain, an id of a tracked block in reach is reported, stays tracked, or lies at or above a changed block without showing a change itself |
| LogSource.ReorgIsReported | packages/builder-service/src/event-adapters.ts:207-249 | over any polls of hash-linked chains, an emitted event is reported by the first poll that finds another block at its height, while that block stays at or below the safe head, within the reorg depth, and the history below its limit |
| LogSource.ExactlyOnceInOrder | packages/builder-service/src/event-adapters.ts:193-253 | over a chain that only extends, polls fed their cursors emit every log of [fromBlock, nextBlock) exactly once, in order, and report no reorg |
| EventWorker.OthersLeaveFlag | packages/builder-service/src/event-delivery.ts:196-222 | no transaction but an ingest or a mark of that event changes the flag of an event in the inbox |
| EventWorker.LastTouchDecides | packages/builder-service/src/event-delivery.ts:196-222 | whoever runs whatever, several pollers of one source included: the last effective mark or ingest of an event decides whether it stands |
| EventWorker.PlanDecides | packages/builder-service/src/event-worker.ts:41-42 | with any transactions in between but an ingest or mark of the same source by another poller, the plan's last operation on an event decides whether it stands |
| EventWorker.RoundIsExact | packages/builder-service/src/event-worker.ts:39-45 | with one poller of the source, after a completed round an event stands exactly when the batch emitted it, or it stood before and was not reported |
| EventWorker.MirrorIsExact | packages/builder-service/src/event-worker.ts:39-45 | after a completed round an event stands without being on the chain exactly if it stood before, no changed tracked block names it and the chain does not have it; an event of the chain does not stand exactly if it did not stand before or a changed tracked block names it, and no block to be scanned has it |
| EventWorker.ReorgedIdsFollowChain | packages/builder-service/src/event-worker.ts:39-45 | an id of a changed tracked block is reported, and stands afterwards exactly when a block of the scanned range has it again |
| EventWorker.EveryCompletedRoundSettles | packages/builder-service/src/event-worker.ts:32-55 | the same two conditions after every completed round, with any rounds before it cut short anywhere and replayed: what stood before is the last operation they carried out on the event |
| EventWorker.EventsInReachAreNeverStray | packages/builder-service/src/event-worker.ts:39-45 | rounds may be cut short anywhere before they touch the event; while its block stays in reach, it stands only if the chain of every completed poll since it was emitted has that block |
| EventWorker.HeldCursorIsStored | packages/builder-service/src/event-worker.ts:34-53 | over any rounds, a cursor the process holds is the stored one; an aborted poll overwrites the stored one and ends the process, which holds none from then on |
| EventWorker.Worker.Round | packages/builder-service/src/event-worker.ts:33-54 | a round carries out a prefix of its plan and saves the cursor only after all of it; a failed read of the cursor, a throwing call, a failed error write, an aborted poll and a stop each leave the stored and the held cursor as the code does |
| EventWorker.Worker.Carry | packages/builder-service/src/event-worker.ts:41-42 | one mark or ingest is one transaction of the plan, or has thrown and changed nothing |
| EventWorker.CrashThenReorgLeavesStray | packages/builder-service/src/event-worker.ts:41-45 | a run from empty tables: a stop before the cursor is saved, then a reorg, leaves an event standing that no block has |
| EventWorker.CrashThenReturnLosesEvent | packages/builder-service/src/event-worker.ts:41-45 | a run from empty tables: a stop after a mark, then the chain going back, leaves an event withdrawn that the chain has |
| EventWorker.ShrinkingHeadLeavesStray | packages/builder-service/src/event-adapters.ts:210-211 | a run from empty tables over a chain that got shorter: no completed round reports the event above its safe head, which goes on standing |
| EventWorker.MovedLogIsLost | packages/builder-service/src/event-adapters.ts:207-224 | a run from empty tables in which a log moves to an untracked lower block: every completed round withdraws it although the chain has it |
| EventWorker.SecondPollerLeavesStray | packages/builder-service/src/event-worker.ts:41-42 | a run from empty tables with two pollers: an ingest from a poll before the reorg undoes the other's mark |
| EventWorker.LostExactlyWhenStuck | packages/builder-service/src/event-worker.ts:34-53 | a source never completes a round again exactly when the empty object is both stored and in use |
| EventWorker.LosableExactly | packages/builder-service/src/event-worker.ts:34-53 | without a restart (an aborted poll is one) exactly the sources whose process holds no copy of the cursor, or an empty one, can still be lost, however good the stored cursor is; with a restart every one can |
| SquareRoot.Sqrt | contracts/aqua-executor/src/concentrated.ts:4-9 | terminates with the exact floor root, and fails exactly on negative input |
| SquareRoot.NewtonStaysAbove | contracts/aqua-executor/src/concentrated.ts:8 | every Newton step stays at or above the root |
| SquareRoot.NewtonStops | contracts/aqua-executor/src/concentrated.ts:8 | an iterate that no longer falls is the root |
| SquareRoot.StartsAbove | contracts/aqua-executor/src/concentrated.ts:7 | the first iterate, from half the bit length, is above the root |
| SquareRoot.SqrtRoundedUp | workflow/src/market-math.ts:19-22 | the accumulator's loop gives the exact ceiling root |
| Volatility.VolatilityBps | workflow/src/market-math.ts:10-26 | fails on anything but 31 positive closes or beyond the safe integers; otherwise the result is accurate on both sides |
| Volatility.VolatilityIsAccurate | workflow/src/market-math.ts:10-26 | bps^2 is at least 10^8 times the exact sum of squared returns, and (bps-2)^2 at most that |
| Volatility.AccumulatedBounds | workflow/src/market-math.ts:12-17 | the integer sum lies between the exact sum and what one unit of rounding per term adds |
| Volatility.Cauchy | workflow/src/market-math.ts:12-17 | the squared sum of returns is at most their number times the sum of their squares |
| Volatility.BookMetrics | workflow/src/market-math.ts:28-32 | rejects exactly crossed or non-positive books; the midpoint lies between bid and ask and the spread is the least basis-point figure not below the exact one |
| PriceText.DisplayThenRead | contracts/aqua-executor/src/autopilot.ts:58 | printing then reading gives n back exactly for 0 < n < 10^54, and everything else is refused |
| PriceText.PricesAreBounded | contracts/aqua-executor/src/concentrated.ts:10-16 | every price that is read is positive and below 10^54 |
| Concentration.BoundsAreTightest | contracts/aqua-executor/src/concentrated.ts:19-36 | an integer is inside the exact square-root range on each side exactly when it is inside the returned bounds, for either token order |
| Concentration.NarrowerStaysInside | contracts/aqua-executor/src/concentrated.ts:19-36 | a display range inside another gives bounds inside the other's, for either token order |
| Concentration.UpperIsGreatest | contracts/aqua-executor/src/concentrated.ts:29-32 | the bound rounded down is the greatest integer at or below the exact root |
| Concentration.LowerIsLeast | contracts/aqua-executor/src/concentrated.ts:29-32 | the bound rounded up is the least integer at or above the exact root |
| Rollover.RolloverIsSound | contracts/aqua-executor/src/autopilot.ts:62-91 | a replacement follows only an expired program within budget and cooldown; its range lies in the policy band, salt and deadline increase, the fee follows the movement, and it is recentred exactly when it has to be |
| Rollover.RecentredStaysInBand | contracts/aqua-executor/src/autopilot.ts:77-81 | clipping, printing, reading and inward rounding never leave the policy band |
| Rollover.ClippedRangeReads | contracts/aqua-executor/src/autopilot.ts:78-80 | the clipped display range contains the price, lies in the band, and survives printing |
| Rollover.ChainMovesForward | contracts/aqua-executor/src/autopilot.ts:82-91 | over any chain of rollovers salts count up by one, deadlines strictly increase, and every range is inside the band |
| CurveMath.PreviewSwapMath | contracts/aqua-executor/src/builder-preview.ts:28-75 | the step-by-step computation with its reassigned reserves gives the specified quote or the first error |
| CurveMath.LiquidityMath | contracts/aqua-executor/src/builder-preview.ts:38-44 | a liquidity it computes is for a proper range and never exceeds the root: L^2*hi*E18 <= (bLt*hi + L*E18)*(bGt*E18 + L*lo) |
| CurveMath.PeggedMath | contracts/aqua-executor/src/builder-preview.ts:52-73 | an output it computes is at most the real balance, and the greatest that leaves the target reserve |
| CurveSafety.LiquidityNeverOverestimates | contracts/aqua-executor/src/builder-preview.ts:38-44 | a liquidity is given only for lo < hi, and L^2*hi*E18 <= (bLt*hi + L*E18)*(bGt*E18 + L*lo) in spite of five roundings |
| CurveSafety.LiquidityIsClose | contracts/aqua-executor/src/builder-preview.ts:41-44 | anything more than 1 + E18/(2 alpha) above L is beyond the root of the quadratic with the rounded coefficients |
| CurveSafety.AlphaIsPositive | contracts/aqua-executor/src/builder-preview.ts:41 | alpha is at least one exactly when lo < hi, and never rounds below the exact ratio |
| CurveSafety.VirtualRoundsAgainstTaker | contracts/aqua-executor/src/builder-preview.ts:45-46 | the virtual amounts are rounded up on the input side and down on the output side, in either orientation |
| CurveSafety.OutputIsMaximal | contracts/aqua-executor/src/builder-preview.ts:49-51 | the output is the greatest one that keeps the product |
| CurveSafety.FeeRoundsUp | contracts/aqua-executor/src/builder-preview.ts:31-35 | the fee is the least integer not below the exact fee and less than the input |
| CurveSafety.SwapKeepsProduct | contracts/aqua-executor/src/builder-preview.ts:28-75 | every constant-product and concentrated swap keeps the product of its pricing reserves and pays as much as that allows |
| CurveSafety.RoundTripNeverGains | contracts/aqua-executor/src/builder-preview.ts:28-51 | swapping out and back never returns more than was paid |
| CurveSafety.SplittingNeverGains | contracts/aqua-executor/src/builder-preview.ts:28-51 | splitting an input into any number of parts never pays more than the whole, rounded fees included, whenever all calls succeed |
| CurveSafety.PeggedLeavesTarget | contracts/aqua-executor/src/builder-preview.ts:69-72 | a pegged output is the greatest whose scaled payment leaves at least the reserve the invariant asks for, and at most the real balance |
| CurveScenarios.RunScenario | contracts/aqua-executor/src/builder-preview.ts:94-119 | the loop gives one assessed result per trade, each starting where the last one ended |
| CurveScenarios.BalancesStayWithin | contracts/aqua-executor/src/builder-preview.ts:94-119 | from balances within the caps every prefix stays within them, refused trades change nothing, and admitted ones move exactly their amounts |
| CurveScenarios.PeggedIsSolvent | contracts/aqua-executor/src/builder-preview.ts:52-73 | a pegged output never exceeds the real balance it comes from |
| CurveScenarios.InventoryAlwaysSuffices | contracts/aqua-executor/src/builder-preview.ts:100-108 | on the constant-product and pegged curves no trade is refused for lack of inventory |
| CurveScenarios.ProductNeverFalls | contracts/aqua-executor/src/builder-preview.ts:94-119 | over any constant-product scenario the product never falls, so base back at or below its start means quote at or above its start |
| Authorization.ParsePriceTruncates | workflow/src/types.ts:232-236 | the scaled price is the greatest integer at or below 10^8 times the exact decimal |
| Authorization.MatchRule | workflow/src/intersect.ts:50-61 | the loop returns the first rule all of whose conditions hold, or none |
| Authorization.FirstMatch | workflow/src/intersect.ts:50-61 | a rule that is returned applies and no earlier one does; without one, none applies |
| Authorization.ComputeAuthorization | workflow/src/intersect.ts:87-184 | the computation with reassigned caps and bits gives the specified report or error, the matched rule's id, the first reason for a pause, and for each cap the stricter side |
| Authorization.ReportRefinesBoth | workflow/src/intersect.ts:98-159 | caps are at most both policies' and uint128, the greatest such unless paused; each direction is open exactly when the rule allows it and there is room |
| Authorization.ValidityIsShortest | workflow/src/intersect.ts:155-159 | a bounded report lives exactly as long as the shortest of rule, Maker and Guard limits |
| Authorization.ValueCapIsWorthAtMost | workflow/src/intersect.ts:70-76 | a converted cap is the largest amount worth at most the value at the mid price |
| Authorization.ReportCapsAreWorthAtMost | workflow/src/intersect.ts:78-118 | token0 caps of a report are worth at most the Maker's share of the budget, ceiling and swap value |
| Authorization.LowerLimitsNeverLoosen | workflow/src/intersect.ts:87-184 | lowering any Maker limit never raises a cap, opens a direction, lengthens validity or changes whether there is a report |
| GuardReport.ComputedReportsEncode | workflow/guard-report/report.ts:13-39 | the schema accepts a computed report exactly when it is paused or both inventory caps are positive |
| GuardReport.ClampBuilderReport | workflow/market-maker-auth/builder-protocol.ts:22-34 | the stepwise clamp gives the specified report or error |
| GuardReport.ClampOnlyLowers | workflow/market-maker-auth/builder-protocol.ts:22-34 | clamping never raises a cap, opens a direction or touches another field, and leaves a direction open only with room |
| GuardReport.ClampIsIdempotent | workflow/market-maker-auth/builder-protocol.ts:22-34 | a clamped report clamps to itself |
| GuardReport.ClampFailsExactly | workflow/market-maker-auth/builder-protocol.ts:22-34 | a valid report fails to clamp exactly when a direction stays open under an envelope with a zero inventory cap |
| GuardReport.ClampKeepsComputed | workflow/market-maker-auth/builder-protocol.ts:22-34 | a report computed from limits equal to the envelope with the same balances is left unchanged |
| GuardReport.TermsHashIsIdentity | workflow/market-maker-auth/builder-protocol.ts:16-20 | terms hashes agree exactly when reports differ at most in nonce and issuance, which is also what counts as the same standing authorization |
| GuardReport.StandingReportsHaveTerms | workflow/market-maker-auth/builder-protocol.ts:16-20 | a report has a terms hash exactly when it is valid and standing |
| GuardReport.DeliveredTermsAreRequested | workflow/market-maker-auth/builder-protocol.ts:36-43 | a prepared delivery carries exactly the requested terms, nonce and time, no older than five minutes |
| CanonicalText.CanonicalIsIdentity | contracts/aqua-executor/src/execution-request.ts:123-127 | canonical texts are equal exactly when the values are equal up to field order, at every depth, fractions and exponents of numbers included |
| CanonicalText.FieldOrderIsIrrelevant | contracts/aqua-executor/src/execution-request.ts:123-127 | writing an object's fields in another order gives the same text |
| CanonicalText.Readable | contracts/aqua-executor/src/execution-request.ts:123-127 | two renderings that agree together with what follows them come from the same value |
| CanonicalText.StringReads | contracts/aqua-executor/src/execution-request.ts:125-126 | an escaped string is read back uniquely, surrogate pairs and lone surrogates included |
| CanonicalText.IntegersAreNumerals | contracts/aqua-executor/src/execution-request.ts:126 | different integers have different texts |
| CanonicalText.CanonicalIsRender | contracts/aqua-executor/src/execution-request.ts:123-127 | sorting keys while printing is printing the value with sorted fields |
| Journal.DurableSender.Send | contracts/aqua-executor/src/durable-send.ts:47-94 | whatever the node answers and wherever it stops, only journal entries of this step are written; success means the saved transaction has a successful receipt; a send that is not cut off succeeds, reverts or throws exactly as the step's entry before it and the answers about the step say |
| Journal.DurableSender.AskReceipt | contracts/aqua-executor/src/durable-send.ts:29-43 | only a receipt of this hash that agrees with the recorded one gets through, and "not found" only if none was recorded |
| Journal.JournalOnlyExtends | contracts/aqua-executor/src/durable-send.ts:47-94 | any further entries keep every saved transaction, its recorded receipt and everything sent |
| Journal.OneTransactionPerStep | contracts/aqua-executor/src/durable-send.ts:47-94 | everything ever sent for a step is the one saved transaction, with one hash |
| Journal.SavedBeforeSent | contracts/aqua-executor/src/durable-send.ts:59-79 | at the time of sending, the bytes were already saved, and they are the ones saved for good |
| Journal.ReceiptsAreFinal | contracts/aqua-executor/src/durable-send.ts:29-43 | a recorded receipt keeps its block and status |
| Controller.ApplyKeeps | contracts/aqua-executor/src/execution-controller.ts:82-257 | every durable effect keeps the controller's invariant |
| ControllerRuns.AtMostOnePending | contracts/aqua-executor/src/execution-controller.ts:91-109 | in every reachable store at most one request is pending |
| ControllerRuns.RunEvolves | contracts/aqua-executor/src/execution-controller.ts:82-257 | finished requests never change, no request changes content, a session's original strategy and policy stay, and the journal only extends |
| ControllerRuns.SessionsKeepTheirShipment | contracts/aqua-executor/src/execution-controller.ts:95-98 | a session has the strategy and policy of the ship request that opened it, for good |
| ControllerRuns.RebalancesAppendedOnce | contracts/aqua-executor/src/execution-controller.ts:185-204 | every place in a session's plan belongs to exactly one successful rebalance request |
| ControllerRuns.FinishedRebalancesArePlaced | contracts/aqua-executor/src/execution-controller.ts:185-204 | a finished rebalance whose transaction succeeded stands in its plan |
| ControllerRuns.ResultsAreTrue | contracts/aqua-executor/src/execution-controller.ts:117-137 | in every reachable store a result is true: shipped, rebalanced or swapped only with the primary transaction succeeded, docked only with the session closed by that request for a cause, a failed trade without a risk stop with nothing traded |
| ControllerRuns.StatusesAreEarned | contracts/aqua-executor/src/execution-controller.ts:120 | in every reachable store an active session has its ship transaction confirmed, and every closing has its cause: a succeeded dock, a strategy seen docked, or one never shipped |
| ControllerRuns.ControllerSendsWhatItSaved | contracts/aqua-executor/src/durable-send.ts:47-94 | everything the controller ever sent is the saved transaction of a known request |
| Executor.ExecutionController.ExecuteRequest | contracts/aqua-executor/src/execution-controller.ts:82-257 | performs only enabled effects under any crash; an id with other content or with another request pending changes nothing; a finished request returns its stored result; a call that is not cut off ends a pending request exactly if it is endable by the store before the call and the answers of the call, and takes a new one exactly if there is no objection and its deadline has not passed |
| Executor.ExecutionController.Work | contracts/aqua-executor/src/execution-controller.ts:170-253 | the work on a taken request: a call that is not cut off gives the request a result exactly if it is endable, whatever action it is and from wherever earlier calls left it; a confirmed ship or rebalance that is not live is left as it was |
| Endings.FavourableEnds | contracts/aqua-executor/src/execution-controller.ts:170-246 | where receipts stay, strategies and prices are as expected and every transaction can be prepared and lands, with success or without, every pending request is endable from every point earlier calls left it at |
| Endings.InactiveMoveNeverEnds | contracts/aqua-executor/src/execution-controller.ts:181-203 | a confirmed ship or rebalance is not endable while its strategy is not fully active, or the replaced one not docked |
| Endings.OccupiedShipEndsAtDeadline | contracts/aqua-executor/src/execution-controller.ts:175-178 | an unsigned ship whose strategy is already on the chain is endable exactly once its deadline has passed |
| Endings.UncoveredSwapNeverEnds | contracts/aqua-executor/src/execution-controller.ts:206-232 | an unsigned swap whose preparation throws, as when the Maker cannot cover it, is endable exactly if the risk or a reverted approval ends it first |
| Endings.ConsumedNonceNeverEnds | contracts/aqua-executor/src/durable-send.ts:67-71 | a request whose signed primary transaction has no receipt and whose nonce was consumed outside is never endable |
| Endings.UnreadableRiskNeverEnds | contracts/aqua-executor/src/execution-controller.ts:159-169 | a rebalance or swap not yet signed, or a confirmed ship, rebalance or swap, is not endable while the risk cannot be read |
| Endings.UnsettledRiskNeverEnds | contracts/aqua-executor/src/execution-controller.ts:149-158 | a request with a risk stop is not endable while its strategy is not seen docked, unless the dock reverts |
| Executor.ExecutionController.RunRebalance | contracts/aqua-executor/src/execution-controller.ts:185-205 | resumes from any crash point; "rebalanced" is stored only with the transaction succeeded and in the plan, a failure other than a rejected risk dock only without it |
| Executor.ExecutionController.Follow | contracts/aqua-executor/src/execution-controller.ts:196-203 | appends the rebalance once, or recognises that an earlier run has |
| Executor.ExecutionController.ApproveMaker | contracts/aqua-executor/src/execution-controller.ts:146-148 | goes on only with all approvals confirmed, and is rejected only if the primary was never signed |
| Executor.ExecutionController.SettleRisk | contracts/aqua-executor/src/execution-controller.ts:149-158 | ends as risk-docked with the session closed, or failed on a rejected dock, or is interrupted with the risk stop still stored |
| Executor.ExecutionController.Guard | contracts/aqua-executor/src/execution-controller.ts:159-169 | leaves the store as it was, ends the request as already docked or by its risk stop, or is interrupted with the request pending |
| Executor.ExecutionController.RunShip | contracts/aqua-executor/src/execution-controller.ts:173-184 | stores "shipped" only with the transaction succeeded and the session active, and a failure other than a rejected risk dock only without it |
| Executor.ExecutionController.RunSwap | contracts/aqua-executor/src/execution-controller.ts:206-234 | stores "swapped" only with the primary transaction succeeded, which is signed only after the taker's approval, and a failure other than a rejected risk dock only without it |
| Executor.ExecutionController.RunWatch | contracts/aqua-executor/src/execution-controller.ts:235-250 | ends within the limit with no session changed, or stopped by the guard |
| Executor.ExecutionController.RunDock | contracts/aqua-executor/src/execution-controller.ts:236-246 | closes the session only after its dock succeeded, on seeing the strategy docked with no dock of its own signed, or for a strategy never shipped, and names which |
| Autopilot.RolloversCountedOnce | contracts/aqua-executor/src/autopilot.ts:111-135 | in every run the counter is the number of settled intents that ended as a rebalance, none settled twice, each in its session's plan |
| Autopilot.RolloversKeepThePolicy | contracts/aqua-executor/src/autopilot.ts:62-91 | in every run in which no strategy comes back to the plan at most maxRebalances are counted, each proposed at least cooldownSec after the one before was mined, and mined that much later too if its block's time is not before that of the block it was proposed at |
| Autopilot.AppendedRolloversAreInBand | contracts/aqua-executor/src/autopilot.ts:82-90 | in every run each counted rollover has its own request, whose entry in the session's plan is the compiled form of a replacement inside the policy band |
| Autopilot.StaleReadingsShow | contracts/aqua-executor/src/autopilot.ts:158-165 | whatever other processes did between the readings and the binding visit, an unchanged active strategy means nothing was counted meanwhile, so budget and cooldown still hold |
| Autopilot.UnacceptedIntentsStay | contracts/aqua-executor/src/autopilot.ts:111-114 | a stored intent stays pending and untaken through any run in which its request is never taken up before its strategy's deadline |
| Autopilot.RefusedForGoodExactly | contracts/aqua-executor/src/execution-controller.ts:107 | from time t on a stored intent whose binding checks still hold can never be taken up again exactly if its deadline is at or before t |
| Autopilot.IntentsAreNeverLost | contracts/aqua-executor/src/autopilot.ts:158-172 | a stored intent stays pending until it is settled, and settled from then on |
| Autopilot.PolicyIsBound | contracts/aqua-executor/src/autopilot.ts:105-107 | a session's autopilot policy never changes and its counter never falls |
| Autopilot.Pilot.Tick | contracts/aqua-executor/src/autopilot.ts:94-173 | a tick, with other processes between its visits to the store and readings used later, performs only moves of the protocol; it stores at most one intent, only when executing, and that is a dock of the strategy first read or its compiled replacement by the rollover rule, in band, within budget and cooldown and not halted; another policy changes nothing |
| Autopilot.Pilot.Propose | contracts/aqua-executor/src/autopilot.ts:144-155 | proposes nothing, a dock of the active strategy, or unless halted a rebalance to the compiled form of exactly the replacement the rollover rule gives, inside the band, the budget and the cooldown |
| Autopilot.Pilot.FinishPending | contracts/aqua-executor/src/autopilot.ts:111-135 | executes and settles the intent by moves of the protocol that store no intent; when it completes, the request has the result and the intent is no longer pending, whoever settled it; without execute nothing changes |
| Autopilot.Pilot.Bind | contracts/aqua-executor/src/autopilot.ts:158-171 | stores an intent exactly when nothing is pending and the session is unchanged, and then within the policy |
| Autopilot.Pilot.SettleIntent | contracts/aqua-executor/src/autopilot.ts:122-133 | settles the intent in one write if it is still the pending one, whatever time its block has, and otherwise changes nothing |

## Left out

- Isolation inside a transaction: every SQL transaction is atomic, and SKIP LOCKED, LIMIT and query order become a free choice of row; the executor's writer lock is mutual exclusion between visits to its store.
- Tables that carry no decision here: outbox rows, agent turns, conversations, simulation jobs, telemetry timestamps and error codes of event rows.
- The reads of consents, authorization bindings, artifacts' currency and outage state are arguments of the steps; the checks before an evaluator is called only shape its answer.
- The attempt number of a retry event that arrives through the public ingest instead of reconcile is taken as zero.
- A graceful shutdown in the middle of a batch or a scan, and a chain that moves within one poll.
- Blocks that carried no events and change in a reorg are not tracked by the code, so replay is claimed sound, not complete.
- Normalisation of logs and market updates, the signed ingress, RPC and HTTP clients, routing, command lines, the frontend and deployment.
- Hash functions, signatures, ABI and bytecode encodings: content stands for its digest, and the compiler and request parser are a predicate on strategies.
- EventService.EventStore.Enable: its random ids are arguments, and a taken id is reported as a duplicate key.
- CanonicalText.CanonicalIsIdentity: that ECMAScript gives different finite numbers different texts is taken from that standard and proved only for integers.
- CurveMath.PeggedMath: growth of the pegged invariant is not claimed, since its roundings do not all favour one side; only solvency is.
- CurveScenarios.RunScenario: the displayed execution price of a trade is not modelled.
- Rollover.RolloverIsSound: the draft fields that only travel along (producer, template metadata) are not modelled.
- GuardReport.ComputedReportsEncode: field texts (digits without leading zeros, hexadecimal addresses in lower case) are numbers.
- That the answers a pending request needs to end ever come, and the watcher's loop around monitor requests.
- Executor.ExecutionController.Guard: the risk figures, the price feed and the records written beside the effects are not modelled.
- Autopilot.Pilot.Tick: prices, balances, the block time and the loss limit are free readings, and the compiler is any function; between its visits other processes execute requests, settle intents and bind policies, while another autopilot storing an intent there is covered by the lemmas over moves alone.
- Autopilot.RolloversKeepThePolicy: that no strategy hash is shipped twice is a rule of the contracts and a condition here; that a rollover's block is no earlier than the one it was proposed at belongs to the chain's clock, which the code does not compare, and is a condition of the spacing of mined times.
- The accounts of Maker and Taker are two names, since one pair of signers owns a store.
- EventWorker.RoundIsExact: one worker polls a source, as in PlanDecides.
- EventWorker.PlanDecides: one worker polls a source; with a second one the last mark or ingest decides, as EventWorker.LastTouchDecides says.
- EventWorker.MirrorIsExact: ids of the service's own events (activations, outages, retries), which no log has, are covered only once they are in the inbox.
- LogSource.ReorgIsReported: a block above the safe head of a poll, deeper than the reorg depth or past 256 tracked blocks is out of the source's sight, and nothing is claimed for it.
- `jobs.ts`, `outbox.ts`, `simulations.ts` and `requests.ts` repeat the lease and idempotency pattern in an easier form; `risk.ts` and the price modules are short floor arithmetic.
- The contracts, their Solidity libraries and the `@pintool/strategy-builder` package are not part of this model.
