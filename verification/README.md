# Verification of the grid bot's ledgers, pollers and shadow questions

A Dafny model of the parts of the grid bot where several steps have to agree: money that is moved between
columns, asynchronous loops that must not overlap, questions that are shuffled, answered and decoded, and
views of the same history that are computed twice. `dafny verify dfyconfig.toml` checks everything.

## How it is organised

| files | what they model |
|---|---|
| Rounding, Numbers, Sorting, Text, Wrappers | 1e-8 rounding with ties up, maximum and minimum, the stable sort, the few string operations, optional results |
| LotReplay, LotConservation, LotMatching, LotHistory, LotOutcome | open lots rebuilt from an execution history: the loops, what one sell keeps, which lots it takes, what a whole history keeps, one buy and one sell in numbers |
| FeeRepair, FeeConservation, FeeOutcome | the batch that gives back over-charged fees: the loop, what it conserves, one correction in numbers |
| SymbolScheduler, SchedulerSafety, SchedulerSignals, SchedulerRuns | the per-symbol run scheduler: class, invariant, a signal for every run, theorems over all runs |
| RecoveryPoller, PricePoller, Pacer | the two pollers and the request pacer |
| ShadowShuffle, ShadowState, ShadowQuestions, ShadowRequests | the seeded shuffle, the portfolio state, the V3 request, no look-ahead |
| ShadowAnswers, ShadowDecoding, ShadowExits, ShadowRoundTrip, ShadowRows, ShadowExamples | the response checks, the decoder, the V4 request, the round trip, what the options describe, inputs that are accepted |
| GridRails, GridCycles, RuntimeState, DraftCapital | grid rails, lots to cycles, the rebuilt runtime state, draft capital |
| Calendar, Candles, CandleMerging, LiveTicks | time buckets, candles from snapshots, live ticks |
| HistorySplice | warm-up and future windows around an observation |
| Rollup | snapshot fold, dashboard totals and backfill query over the same bots |
| LabRequests, LabTransfer | the Lab request parser and the Lab-to-bot draft hop |

**Money** is an integer number of 1e-10 units, because the stored columns are Decimal(30, 10); `round(x, 8)` is
the nearest multiple of 100 units with ties up. A quotient is rounded as a ratio of integers, so no precision is
lost before rounding. Draft capital and probabilities are reals.

**Asynchronous code** is a step system. One step is one synchronous stretch of the code, so every `await` is a
place where any other enabled step may come first. Each class is written with its own fields and methods, and
`View()` ties every method to the step it performs; the theorems then quantify over all sequences of enabled
steps. The clock is positive and never goes back, timers never fire early, and `runSymbol` is asynchronous and
does not call `stop` before its first `await`.

**Digests** are arbitrary sequences of 32 bytes.

## What the proofs turned up

- A candidate whose id is `abstain` merges with the abstain option when probabilities are decoded: an accepted
  answer that is sure of it is stored with total probability zero. The V3 and V4 builders accept such an input
  under every digest, and mass is kept for every accepted answer exactly when no candidate has the id.
- `JupiterPricePoller.start()` after a `stop()` whose poll is still in flight gives two loops, and a timer that no
  later `stop()` can clear. It stays a single loop in exactly the runs without such a call.
- With a polling interval above 30 seconds, a failed poll is retried sooner than a successful one is refreshed.
- The pacer bounds how many requests have gone out by any time, not the gap between two of them: when timers fire
  up to L late, requests may go out as close as the interval less L, and they are an interval apart in all runs
  exactly when L is zero.
- A live tick that is older than the bucket's last snapshot, or that opens a new bucket, does not give the candles
  a rebuild would give; the exact conditions are proved.
- `Date.UTC` reads the years 0 to 99 as 1900 to 1999, so day, week and month buckets are floors exactly outside
  those years; inside them they lie 693,960 or 693,961 days later, which is not a whole number of weeks.
- A bot archived in the future counts as closed on the dashboard and as open in the portfolio snapshot.
- Without a price the rebuilt snapshot's equity leaves the open lots out altogether.
- The lot rebuild keeps base amounts with ten decimals while its rounding works on eight: money is conserved exactly
  in any case, base within half a step per sell, and exactly if and only if each partly sold lot is left on the
  1e-8 grid.
- The fee repair rounds each correction to eight decimals: a bot gets back in cash what its execution rows lose
  exactly when its over-charged fees are stored on that grid, and up to half a step more or less for each if not.

## Model

| member | source | states |
|---|---|---|
| Rounding.RoundHalfUp | packages/db/prisma/reconstruct-open-position-lots.ts:109-112 | the result is within half of n/d, and a tie goes up |
| Rounding.RoundHalfUpMonotone | packages/db/prisma/reconstruct-open-position-lots.ts:109-112 | a larger ratio never rounds to a smaller integer, across different denominators |
| Rounding.Round8Shift | packages/db/prisma/reconstruct-open-position-lots.ts:109-112 | adding whole 1e-8 steps before rounding is the same as adding them after |
| Rounding.Round8Share | packages/db/prisma/reconstruct-open-position-lots.ts:202-207 | the rounded share of a grid amount stays between zero and the amount, so the zero clamp on cost cannot bite |
| LotReplay.SellFrom | packages/db/prisma/reconstruct-open-position-lots.ts:181-224 | one sell: the loop over the lots gives the surviving lots and the realised PnL of the specified walk, which LotOutcome.SellOutcome states in numbers |
| LotReplay.ReplayExecutions | packages/db/prisma/reconstruct-open-position-lots.ts:130-242 | the replay loop, with its skips, computes the specified ledger, whose every step LotOutcome states in numbers |
| LotConservation.SellOneLot | packages/db/prisma/reconstruct-open-position-lots.ts:197-223 | for one lot of one sell: cost splits exactly into what is kept and what is filled, realised PnL grows by quote - fee - cost, a fill lies between nothing and the lot, and a partly sold lot ends the sell |
| LotConservation.WalkMoney | packages/db/prisma/reconstruct-open-position-lots.ts:196-214 | within one sell, cost leaves open lots only through fills and never clamps, and realised PnL grows by proceeds less fees less matched cost, exactly |
| LotConservation.WalkBase | packages/db/prisma/reconstruct-open-position-lots.ts:202-211 | within one sell, base leaves open lots only through fills: exactly when lots and sell are on the 1e-8 grid, in any case within half a step |
| LotConservation.WalkDrift | packages/db/prisma/reconstruct-open-position-lots.ts:202-211 | to the unit, for any amounts: what is missing or added is the rounding of the remainders of filled lots |
| LotConservation.BaseExactIff | packages/db/prisma/reconstruct-open-position-lots.ts:202-211 | one sell conserves base exactly if and only if the lot it sells in part, if there is one, is left on the grid |
| LotConservation.WalkProceeds | packages/db/prisma/reconstruct-open-position-lots.ts:203-212 | the proceeds allocated by a sell stay within half a grid step per touched lot of the exact pro-rata value |
| LotMatching.CandidateIds | packages/db/prisma/reconstruct-open-position-lots.ts:181-190 | the candidate lots are exactly the material lots at the paired level and the material lots below the effective price |
| LotMatching.SortsDoNotMatter | packages/db/prisma/reconstruct-open-position-lots.ts:183-190 | any other order of the two candidate lists gives the same sell |
| LotMatching.WalkDiscipline | packages/db/prisma/reconstruct-open-position-lots.ts:192-223 | in replay order a sell empties a prefix of its candidates, stops inside at most one, and leaves every other lot untouched |
| LotMatching.WalkFallbackGain | packages/db/prisma/reconstruct-open-position-lots.ts:184-207 | a lot matched only because it was profitable is never sold below its cost, even after rounding |
| LotHistory.ReplayKeepsLedger | packages/db/prisma/reconstruct-open-position-lots.ts:130-242 | after any history: costs on the grid, open lots material-positive, unclosed, with distinct ids that trace back to an execution |
| LotHistory.OpenLotsTraceBack | packages/db/prisma/reconstruct-open-position-lots.ts:158-224 | every open lot of any history is what is left of the lot some counted buy opened: same id, level, entry price, opening time, and no more base or cost than was bought |
| LotHistory.Conservation | packages/db/prisma/reconstruct-open-position-lots.ts:130-242 | over any history: bought cost = open + matched + dropped cost, realised PnL = matched proceeds - fees - cost, and bought base = open + matched + dropped base + the rounding of remainders to the unit, at most half a step per sell, nothing on the grid |
| LotHistory.BaseExactThroughoutIff | packages/db/prisma/reconstruct-open-position-lots.ts:130-242 | base is conserved exactly after every execution of a history if and only if every sell leaves the lot it sells in part on the grid |
| LotHistory.OffGridSellDrifts | packages/db/prisma/reconstruct-open-position-lots.ts:202-204 | a buy off the grid, half sold, after which the books hold 50 units (half a step) more than were bought |
| LotHistory.FeesAndCounts | packages/db/prisma/reconstruct-open-position-lots.ts:134-231 | each execution is counted once as buy, sell or ignored, and the fee total is the sum of the counted fees up to rounding |
| LotHistory.SellAfterHistory | packages/db/prisma/reconstruct-open-position-lots.ts:181-224 | after every sell of any history: candidate set, prefix discipline, material survivors, no fallback loss, pro-rata proceeds, together |
| LotOutcome.CountsIff | packages/db/prisma/reconstruct-open-position-lots.ts:114-150 | an execution is replayed exactly when it is submitted, filled or simulated and exchanged positive amounts |
| LotOutcome.IgnoredOutcome | packages/db/prisma/reconstruct-open-position-lots.ts:134-150 | any other execution changes the ignored count and nothing else |
| LotOutcome.BuyOutcome | packages/db/prisma/reconstruct-open-position-lots.ts:154-178 | a counted buy after any history appends one lot: all base bought, cost input + fee and entry price cost / base to the nearest 1e-8, its level, id and time, open; it realises nothing |
| LotOutcome.SellOutcome | packages/db/prisma/reconstruct-open-position-lots.ts:181-224 | every sell after any history, in numbers: takes only from lots above 10,000 base and 500,000,000 cost that are one level below or cheaper than the sell; takes proceeds, fee and cost pro rata to the nearest 1e-8; sells all of it while such lots last; and the lots that stay open are exactly those left with more than 10,000 base and 500,000,000 cost, otherwise unchanged and in order |
| LotOutcome.MaterialRemainderStaysOpen | packages/db/prisma/reconstruct-open-position-lots.ts:196-224 | so the remainder of a lot is open after a sell if and only if it is above both thresholds |
| LotOutcome.SellKeepsOrder | packages/db/prisma/reconstruct-open-position-lots.ts:184-224 | a sell never reorders the open lots |
| LotOutcome.DroppedIsDust | packages/db/prisma/reconstruct-open-position-lots.ts:215-224 | the dropped base and cost of the conservation theorems are the sums of the lots sells dropped, and each of those had at most 10,000 base or 500,000,000 cost left |
| LotHistory.RebuiltCash | packages/db/prisma/reconstruct-open-position-lots.ts:403-410 | rebuilt cash is budget + matched net cash flow + dropped cost before its clamp; equity is budget + PnL + exactly what the clamp added; base and cost are those of the open lots, realised PnL the matched one, unrealised PnL to the nearest 1e-8 |
| SymbolScheduler.SymbolRunScheduler.Schedule | apps/worker/src/symbol-run-scheduler.ts:15-26 | schedule is the specified step of the whole state |
| SymbolScheduler.SymbolRunScheduler.Stop | apps/worker/src/symbol-run-scheduler.ts:28-32 | stop clears the queue, blocks new runs and awaits exactly the registered drains |
| SymbolScheduler.SymbolRunScheduler.LaunchDrain | apps/worker/src/symbol-run-scheduler.ts:34-37 | a drain is started and registered in one synchronous stretch |
| SymbolScheduler.SymbolRunScheduler.DrainLoop | apps/worker/src/symbol-run-scheduler.ts:39-61 | the loop head: sleep, start a run, or leave |
| SymbolScheduler.SymbolRunScheduler.Finally | apps/worker/src/symbol-run-scheduler.ts:54-60 | the finally block frees the symbol and relaunches if it was queued again |
| SymbolScheduler.SymbolRunScheduler.OnWake | apps/worker/src/symbol-run-scheduler.ts:43-50 | after a sleep: leave if stopped, else start the run without asking for the interval again |
| SymbolScheduler.SymbolRunScheduler.OnSettled | apps/worker/src/symbol-run-scheduler.ts:50-54 | after a run: loop on success, leave on failure |
| SymbolScheduler.SymbolRunScheduler.GetWaitMs | apps/worker/src/symbol-run-scheduler.ts:63-71 | never negative; a positive wait ends exactly one interval after the last start, and there is none exactly when there is no interval, no last start, or the interval has passed |
| SchedulerSafety.NextKeeps | apps/worker/src/symbol-run-scheduler.ts:15-71 | every step keeps: one live drain per symbol, registered and listed; a queued symbol has a drain; starts spaced; no signal dropped; every live drain awaited by each stop |
| SchedulerRuns.Safety | apps/worker/src/symbol-run-scheduler.ts:15-71 | over all interleavings and failures: at most one run per symbol in flight, starts minIntervalMs apart, a sleep ends exactly one interval after the last start, a queued symbol has a live drain, every accepted signal is served, queued or cut off by stop, and every start is paid for by an accepted signal of its own, so starts never outnumber signals |
| SchedulerSignals.NextPaid | apps/worker/src/symbol-run-scheduler.ts:15-61 | every step keeps: before each start there is an accepted call for its symbol with no other start of it in between, and each queued symbol has such a call unanswered |
| SchedulerSignals.StartsWithinSignals | apps/worker/src/symbol-run-scheduler.ts:15-61 | so starts of a symbol are at most its accepted calls, and fewer while one is unanswered |
| SchedulerRuns.PromptStart | apps/worker/src/symbol-run-scheduler.ts:15-61 | a call for a symbol that is not running and whose interval is over starts it in the same stretch |
| Text.ToUpperIs | apps/worker/src/symbol-run-scheduler.ts:17-17 | symbols are normalised letter by letter: a to z become A to Z |
| SchedulerRuns.NoSignalLost | apps/worker/src/symbol-run-scheduler.ts:15-61 | a schedule call accepted in any reachable state is followed by a start of its symbol once its drain has resumed twice, unless stopped |
| SchedulerRuns.Progress | apps/worker/src/symbol-run-scheduler.ts:39-61 | the same from any invariant state with the symbol queued |
| SchedulerRuns.StoppedForGood | apps/worker/src/symbol-run-scheduler.ts:28-61 | after stop no run starts and no drain appears, whatever is scheduled later |
| SchedulerRuns.QuietForever | apps/worker/src/symbol-run-scheduler.ts:28-37 | once a stop has resolved no drain is alive, now or later |
| SchedulerRuns.Shutdown | apps/worker/src/main.ts:142-149 | from a fresh scheduler, after some stop resolved no symbol is in flight and none starts, though a price poll may still deliver |
| RecoveryPoller.ExecutionRecoveryPoller.Start | apps/worker/src/execution-recovery-poller.ts:15-19 | start takes effect only when stopped and no poll is pending |
| RecoveryPoller.ExecutionRecoveryPoller.Stop | apps/worker/src/execution-recovery-poller.ts:21-26 | stop clears the timer and awaits the running poll |
| RecoveryPoller.ExecutionRecoveryPoller.OnListed | apps/worker/src/execution-recovery-poller.ts:35-39 | the ids are deduplicated before the loop |
| RecoveryPoller.ExecutionRecoveryPoller.OnRecovered | apps/worker/src/execution-recovery-poller.ts:38-42 | a settled recovery, failed or not, goes on to the loop head |
| RecoveryPoller.ExecutionRecoveryPoller.OnSettled | apps/worker/src/execution-recovery-poller.ts:28-33 | the finally callback forgets the poll and arms a timer unless stopped |
| RecoveryPoller.Safety | apps/worker/src/execution-recovery-poller.ts:15-46 | over all interleavings: at most one poll in flight and never beside a timer; while started always one or the other; each bot tried at most once per poll; a poll not cut by stop tries every id, whichever failed |
| RecoveryPoller.RecoversEverything | apps/worker/src/execution-recovery-poller.ts:35-42 | unless stop() is called, a poll that settles has passed every id the query returned to recoverBot, and no other, in the order they first occur |
| RecoveryPoller.StopIsFinal | apps/worker/src/execution-recovery-poller.ts:21-33 | when stop resolves, and until a later start is accepted, no poll and no timer exists |
| PricePoller.JupiterPricePoller.Start | apps/worker/src/jupiter-price-poller.ts:17-24 | start polls unless already started |
| PricePoller.JupiterPricePoller.Stop | apps/worker/src/jupiter-price-poller.ts:26-32 | stop clears the one timer it knows |
| PricePoller.JupiterPricePoller.OnFetched | apps/worker/src/jupiter-price-poller.ts:37-50 | a fetched batch resets the failure counter; a failed one backs off |
| PricePoller.JupiterPricePoller.OnDelivered | apps/worker/src/jupiter-price-poller.ts:40-58 | delivery ends the poll at the normal interval, or backs off on failure |
| PricePoller.SingleLoopIff | apps/worker/src/jupiter-price-poller.ts:17-58 | the poller stays one loop in exactly the runs where start never overtakes a stopped poll still in flight |
| PricePoller.KeepsPolling | apps/worker/src/jupiter-price-poller.ts:17-58 | in such runs a started poller always has a poll in flight or the one timer that stop() can clear, and a stopped one has no timer |
| PricePoller.RacingRun | apps/worker/src/jupiter-price-poller.ts:17-58 | a concrete run start, stop, start with two polls in flight and a timer that survives the last stop |
| PricePoller.BackoffFollowsFailures | apps/worker/src/jupiter-price-poller.ts:36-50 | in every run the counter is the number of failures since the last successful fetch |
| PricePoller.FailureDelay | apps/worker/src/jupiter-price-poller.ts:47-58 | after any run of a fresh poller, a poll that fails while not stopped re-arms with min(interval * 2^k, 30 s), k the failures since the last successful fetch counting this one |
| PricePoller.SuccessDelay | apps/worker/src/jupiter-price-poller.ts:37-58 | after any run, a poll that succeeds while not stopped re-arms with the plain interval |
| PricePoller.BackoffMonotone | apps/worker/src/jupiter-price-poller.ts:48-49 | the failure delay never shrinks with k and never exceeds 30 s |
| PricePoller.BackoffNotShorterIff | apps/worker/src/jupiter-price-poller.ts:4-49 | a failure waits at least the normal interval exactly when that interval is at most 30 s |
| Pacer.PacedFetch.Fetch | apps/worker/src/shadow-execution-quote-client.ts:138-149 | a call reserves the next slot, then waits, dispatches or rejects |
| Pacer.PacedFetch.OnAbort | apps/worker/src/shadow-execution-quote-client.ts:144-148 | an abort rejects a waiting call and is seen by one about to continue |
| Pacer.PacedFetch.OnContinue | apps/worker/src/shadow-execution-quote-client.ts:149-150 | a call whose wait is over is dispatched unless aborted |
| Pacer.Throughput | apps/worker/src/shadow-execution-quote-client.ts:136-151 | for any interleaving of callers and aborts: slots an interval apart, nothing dispatched before its slot, at most floor((t - first slot)/interval) + 1 dispatches by t |
| Pacer.EarliestSlot | apps/worker/src/shadow-execution-quote-client.ts:138-141 | after any run a call gets the earliest slot: at once, or one interval after the last slot |
| Pacer.AbortedNeverDispatched | apps/worker/src/shadow-execution-quote-client.ts:141-149 | a call aborted at any moment before its dispatch keeps its slot and is not dispatched in any continuation |
| Pacer.SlotsIgnoreAborts | apps/worker/src/shadow-execution-quote-client.ts:136-149 | every call gets the slot it would have got had no call been aborted |
| Pacer.LatenessBoundsGaps | apps/worker/src/shadow-execution-quote-client.ts:136-150 | in every run whose dispatches are at most `late` after their slots, dispatches are at least interval - late apart |
| Pacer.SpacedIff | apps/worker/src/shadow-execution-quote-client.ts:136-150 | all runs at most `late` behind keep their dispatches an interval apart if and only if late is zero |
| Pacer.LateTimersBunch | apps/worker/src/shadow-execution-quote-client.ts:140-150 | that bound is met: for any lateness up to an interval, a run with two dispatches exactly interval - late apart, at a full interval in the same instant |
| FeeRepair.RepairOne | packages/db/prisma/fix-jupiter-rent-fees.ts:193-257 | the loop body computes the specified batch step, which FeeOutcome.CorrectionOutcome states in numbers |
| FeeRepair.RepairFees | packages/db/prisma/fix-jupiter-rent-fees.ts:187-257 | the whole loop computes the specified batch |
| FeeOutcome.SkippedOutcome | packages/db/prisma/fix-jupiter-rent-fees.ts:187-209 | an execution without positive lamports or without a positive SOL price is skipped, and nothing else changes |
| FeeOutcome.CorrectionOutcome | packages/db/prisma/fix-jupiter-rent-fees.ts:193-257 | after any batch, in numbers: the corrected fee is lamports * price to the nearest 1e-8; within 100 units nothing changes; else the bot gets the difference back, of which the open lot keeps its part by remaining base and the rest is realised; the lot cost falls by its part, no other bot is touched |
| FeeOutcome.PartIsClose | packages/db/prisma/fix-jupiter-rent-fees.ts:230-237 | the part of a partly sold lot is remaining / original of the correction to half a step, and no more than all of it |
| FeeRepair.LastLotWins | packages/db/prisma/fix-jupiter-rent-fees.ts:187-187 | of several lots opened by one execution the last one gets the correction |
| FeeConservation.RepairConserves | packages/db/prisma/fix-jupiter-rent-fees.ts:193-257 | for each bot: fee reduction = cash delta = realised delta + open-cost delta, unrealised = open-cost delta, and they are the sums of the rounded corrections of its over-charged executions |
| FeeConservation.EquityMinusPnlUnchanged | packages/db/prisma/fix-jupiter-rent-fees.ts:324-334 | applying a delta leaves equity - total PnL unchanged; cash and equity rise by the sum of the rounded corrections, unrealised PnL by the part that stays in open lots, realised PnL by the rest |
| FeeConservation.LotUpdates | packages/db/prisma/fix-jupiter-rent-fees.ts:225-249 | every open lot is updated at most once, by its own opening execution and from its original cost |
| FeeConservation.OpenCostFalls | packages/db/prisma/fix-jupiter-rent-fees.ts:236-248 | a bot's open cost falls by its open-cost delta plus what the lots' clamps and rounding slip |
| FeeConservation.DeployedFollowsDelta | packages/db/prisma/fix-jupiter-rent-fees.ts:306-329 | with grid costs, the open cost falls by exactly the open-cost delta if and only if no touched lot's clamp fires; otherwise by less |
| FeeConservation.FeesWritten | packages/db/prisma/fix-jupiter-rent-fees.ts:252-289 | each execution ends with its corrected fee if it was over-charged, else with its old one |
| FeeConservation.CashMatchesRows | packages/db/prisma/fix-jupiter-rent-fees.ts:193-289 | the cash a bot gets back is what its execution rows lose plus the rounding of its corrections |
| FeeConservation.FeeRoundingBound | packages/db/prisma/fix-jupiter-rent-fees.ts:211-222 | that rounding is at most half a step per over-charged execution |
| FeeConservation.CashExactIff | packages/db/prisma/fix-jupiter-rent-fees.ts:193-289 | cash and rows agree throughout the batch if and only if the bot's over-charged fees are stored on the 1e-8 grid |
| FeeConservation.OffGridFeeOverpays | packages/db/prisma/fix-jupiter-rent-fees.ts:193-289 | a stored fee of 150 units corrected to zero: 200 units of cash for a row that falls by 150 |
| FeeConservation.Idempotent | packages/db/prisma/fix-jupiter-rent-fees.ts:193-299 | a second run with the same reference price on the written rows changes nothing |
| ShadowShuffle.Shuffle | apps/worker/src/shadow-jev-v3-questions.ts:78-81 | the in-place swap loop computes the specified rearrangement |
| ShadowShuffle.ShuffleIsPermutation | apps/worker/src/shadow-jev-v3-questions.ts:73-81 | whatever the digest, the result is a rearrangement given by a permutation of positions |
| ShadowShuffle.EveryOrderReachable | apps/worker/src/shadow-jev-v3-questions.ts:76-81 | every order of the options is produced by some digest |
| ShadowShuffle.EveryExitOrderReachable | apps/worker/src/shadow-jev-v4-questions.ts:30-35 | every order of the exit plans is produced by some digest |
| ShadowShuffle.DrawsReadDigest | apps/worker/src/shadow-jev-v3-questions.ts:76-81 | byte b of the digest picks among the positions left after b swaps in V3, and among i + 1 positions for position i in V4 (apps/worker/src/shadow-jev-v4-questions.ts:32-35); no other byte matters |
| ShadowQuestions.PrepareCandidates | apps/worker/src/shadow-jev-v3-questions.ts:82-114 | the callback over the shuffled candidates: checks, option names, rows, first error wins |
| ShadowQuestions.BuildRequest | apps/worker/src/shadow-jev-v3-questions.ts:55-200 | the whole builder returns the specified request or error |
| ShadowState.StateReadIff | apps/worker/src/shadow-jev-v3-questions.ts:134-176 | the portfolio state is read exactly when every number of it is finite, of the lots only the open ones; its entry range is that of the open lots and is missing exactly when there are none |
| ShadowState.StateShowsPolicy | apps/worker/src/shadow-jev-v3-questions.ts:155-176 | every number of the state is the policy's own, spacing in per cent of the low price, a missing cost parameter zero, lot count and cost those of the lots held and not retained |
| ShadowRequests.AcceptanceIgnoresSeed | apps/worker/src/shadow-jev-v3-questions.ts:55-176 | whether a request is built does not depend on the digest, and is exactly the stated condition on the frozen input |
| ShadowRows.AcceptedIff | apps/worker/src/shadow-jev-v3-questions.ts:55-176 | under every digest an input is accepted exactly when its candidates are admissible, spelled out field by field, with distinct ids and keep first, and dates, window, band and numbers are in order |
| ShadowRequests.OptionsAreBijective | apps/worker/src/shadow-jev-v3-questions.ts:82-150 | in any built request the options are a rearrangement of the candidates, the option map is a bijection onto their ids, and the criteria are the options then abstain |
| ShadowRows.OptionsDescribeCandidates | apps/worker/src/shadow-jev-v3-questions.ts:82-114 | under every digest each option's row shows, field by field, the one candidate whose id the option is decoded to |
| Text.DecimalReadsBack | apps/worker/src/shadow-jev-v3-questions.ts:95-95 | an option's number is written in digits that read back to it |
| ShadowRequests.NoLookAhead | apps/worker/src/shadow-jev-v3-questions.ts:118-133 | two inputs that agree on the candles closed at or before observedAt get the same answer, request or error |
| ShadowRequests.WindowIsLatest | apps/worker/src/shadow-jev-v3-questions.ts:118-133 | in every built request the window is ascending, its last candle closed exactly at observedAt, and it holds the latest at most 24 of the candles closed by then, which are exactly the recorded ones that closed by then |
| ShadowRows.RequestShowsMarket | apps/worker/src/shadow-jev-v3-questions.ts:134-176 | the three market percentages are those of the window, and state and objective those of the input |
| ShadowAnswers.ReadDistribution | apps/worker/src/shadow-jev-v3-client.ts:54-55 | the loop reads one probability per option, and fails exactly when one is not in [0, 1] |
| ShadowAnswers.ParseAnswer | apps/worker/src/shadow-jev-v4-client.ts:18-24 | one answer is accepted exactly when type, choice, option set, range, sum and maximum are right, and is then that distribution |
| ShadowAnswers.AcceptedAnswer | apps/worker/src/shadow-jev-v4-client.ts:18-24 | an accepted answer in numbers: its choice is a criterion, every criterion has a probability between 0 and 1, none more than 1e-9 above the choice's, the sum within 0.01 of one |
| ShadowAnswers.ParseV3Response | apps/worker/src/shadow-jev-v3-client.ts:38-70 | a V3 response is accepted exactly when its answer and envelope are, with the parsed values |
| ShadowAnswers.EvaluateV4 | apps/worker/src/shadow-jev-v4-client.ts:14-28 | a V4 response is accepted exactly when both answers and the envelope are |
| ShadowDecoding.DecodeDistinct | apps/worker/src/shadow-jev-consumer.ts:81-82 | under distinct names every option's probability lands on its name |
| ShadowDecoding.DecodedMass | apps/worker/src/shadow-jev-consumer.ts:81-82 | decoding loses exactly the probability of an option whose candidate is called abstain |
| ShadowDecoding.DecodeCandidates | apps/worker/src/shadow-jev-consumer.ts:81-86 | every other candidate gets its option's probability, abstain keeps its own, nothing else appears |
| ShadowDecoding.AbstainIdLosesAll | apps/worker/src/shadow-jev-consumer.ts:81-82 | with a candidate called abstain, an accepted answer sure of it decodes to total probability zero |
| ShadowDecoding.RequestEncodes | apps/worker/src/shadow-jev-v4-questions.ts:72-73 | a built request's criteria and option map encode its candidates, also after V4 adds abstain |
| ShadowRoundTrip.V3RoundTrip | apps/worker/src/shadow-jev-consumer.ts:76-88 | build, answer, check, decode: with no candidate called abstain every probability is on its candidate, total mass is kept, the choice stays maximal within 1e-9 |
| ShadowRoundTrip.V3ChoiceRecorded | apps/worker/src/shadow-jev-consumer.ts:84-86 | the recorded candidate id is a real candidate's, and null exactly for abstain |
| ShadowRoundTrip.V3LossIff | apps/worker/src/shadow-jev-consumer.ts:76-86 | some accepted answer decodes to a different total exactly when a candidate is called abstain |
| ShadowExamples.AbstainIsAccepted | apps/worker/src/shadow-jev-v3-questions.ts:55-150 | a frozen input with candidates keep and abstain is accepted under every digest, and some accepted answer to it loses mass |
| ShadowExits.PrepareExits | apps/worker/src/shadow-jev-v4-questions.ts:36-54 | the exit callback accepts exactly well-formed plans with distinct ids, and names them in order |
| ShadowExits.BuildRequest4 | apps/worker/src/shadow-jev-v4-questions.ts:22-74 | the whole V4 builder returns the specified request or error |
| ShadowRows.AcceptedIff4 | apps/worker/src/shadow-jev-v4-questions.ts:22-96 | under every pair of digests a V4 input is accepted exactly when its grid input is, its exit plans are sound, spelled out field by field, with distinct ids and keep first, and its fine snapshot, if any, is |
| ShadowRows.ExitOptionsDescribePlans | apps/worker/src/shadow-jev-v4-questions.ts:36-54 | each exit option's row shows the family, parameters and updates of the one plan whose id it is decoded to |
| ShadowRows.GridOptionsDescribeCandidates | apps/worker/src/shadow-jev-v4-questions.ts:72-73 | the same for the grid options of V4, beside abstain |
| ShadowRoundTrip.ExitAcceptanceIgnoresSeed | apps/worker/src/shadow-jev-v4-questions.ts:30-53 | whether the exit plans are accepted does not depend on their digest |
| ShadowRoundTrip.ExitsEncode | apps/worker/src/shadow-jev-v4-questions.ts:36-54 | the exit criteria and map encode the exit ids |
| ShadowRoundTrip.V4RoundTrip | apps/worker/src/shadow-jev-consumer.ts:96-105 | both V4 questions decode faithfully when neither has an id abstain |
| ShadowRoundTrip.V4LossIff | apps/worker/src/shadow-jev-consumer.ts:96-105 | and each loses mass for some answer exactly when it has one |
| ShadowExamples.AbstainIsAcceptedV4 | apps/worker/src/shadow-jev-v4-questions.ts:22-74 | the same for V4, with a candidate and an exit plan called abstain, for each question |
| ShadowExamples.RoundTripsHappen | apps/worker/src/shadow-jev-v4-questions.ts:22-74 | and without such an id there are accepted requests and answers for both questions under every pair of digests |
| ShadowRoundTrip.FineWindow | apps/worker/src/shadow-jev-v4-questions.ts:76-96 | an accepted fine window is the last at most 24 recorded candles, five minutes apart throughout, none after observedAt, each well formed |
| ShadowRoundTrip.FineAcceptedIff | apps/worker/src/shadow-jev-v4-questions.ts:80-94 | the fine window is accepted exactly when resolution, symbol, quote and count match, each of the last 24 candles lasts five minutes, is not in the future and has prices in order, and each closes five minutes after the one before |
| ShadowRoundTrip.FineStatus | apps/worker/src/shadow-jev-v4-questions.ts:78-96 | the status is missing, empty, or the close of the last candle |
| GridRails.ArithmeticRails | apps/web/src/lib/bot-management.ts:1058-1074 | arithmetic rails never fall and run from the rounded low to the rounded high price |
| GridRails.ArithmeticSpacing | apps/web/src/lib/bot-management.ts:1068-1073 | neighbouring rails are one even step apart up to a grid unit, so they differ when the step is at least that |
| GridRails.ArithmeticPlaces | apps/web/src/lib/bot-management.ts:1068-1073 | every arithmetic rail is the grid price nearest to its even place between low and high |
| GridRails.GeometricRails | apps/web/src/lib/bot-management.ts:1076-1080 | with the ratio the exact root, geometric rails never fall and run from rounded low to rounded high |
| GridRails.GeometricPlaces | apps/web/src/lib/bot-management.ts:1076-1080 | every geometric rail is the grid price nearest to the low price compounded by the ratio rail by rail, so neighbours more than a grid step apart differ |
| GridRails.InferredCycle | apps/web/src/lib/bot-management.ts:1103-1128 | on ascending rails an active lot's cycle sells at the lowest rail from 1 up above cost / base + 1e-8, all higher rails being so too, and buys one rail below; there is no sell rail exactly when no rail is above that |
| GridRails.ActiveLotGetsCycle | apps/web/src/lib/bot-management.ts:1103-1128 | on two or more rails, ascending or not, an active lot always gets a cycle |
| GridCycles.RemapOpenLots | apps/web/src/lib/bot-management.ts:1083-1101 | the loop fills the specified map |
| GridCycles.RemapKeepsEveryLot | apps/web/src/lib/bot-management.ts:1083-1101 | every active lot is in the map with its own cycle |
| GridCycles.RemapKeepsNothingElse | apps/web/src/lib/bot-management.ts:1083-1101 | every entry is an active lot's cycle and no lot has two |
| GridCycles.RemapCount | apps/web/src/lib/bot-management.ts:1083-1101 | as many entries as active lots: no key is overwritten |
| GridCycles.RailKeyIsOldest | apps/web/src/lib/bot-management.ts:1087-1097 | a rail key holds a lot of that rail that none opened before; the others are under their lot keys |
| GridCycles.NoRailsNoCycles | apps/web/src/lib/bot-management.ts:1104-1107 | with fewer than two rails there is no cycle |
| RuntimeState.EquityIdentity | apps/web/src/lib/bot-management.ts:675-718 | for every budget, price and lots: equity = budget + realised + unrealised PnL + the clamped shortfall, less the deployed cost when there is no price or the open base rounds to nothing |
| RuntimeState.SnapshotNumbers | apps/web/src/lib/bot-management.ts:675-718 | deployed cost, base, realised and unrealised PnL and equity are the sums over the open lots and the values at the price, each to the nearest 1e-8 |
| RuntimeState.EquityExactIff | apps/web/src/lib/bot-management.ts:680-718 | with a price and open base, equity is exactly budget plus PnL precisely when budget + realised covers the deployed cost |
| RuntimeState.AverageEntry | apps/web/src/lib/bot-management.ts:690-693 | average entry times base gives the deployed cost back within half a grid unit of price, and is missing exactly when there is nothing to average |
| RuntimeState.SnapshotCycles | apps/web/src/lib/bot-management.ts:675-700 | the snapshot's cycles are those of the open lots it was given, although lots are filtered twice |
| DraftCapital.NormalizeSound | apps/web/src/lib/bot-management.ts:469-483 | normalised capital is in whole cents with reserve + deployable within budget; a draft is unchanged exactly when already so; normalising twice is normalising once |
| DraftCapital.NormalizeGives | apps/web/src/lib/bot-management.ts:469-483 | each figure to the nearest cent, the budget not negative, the reserve clamped to the budget and the deployable capital to the rest |
| Calendar.YearOf | apps/web/src/lib/charting.ts:36-49 | the year a day falls in (section 21.4.1 of ECMA-262): its first day is not after the day, and the next year's is |
| Calendar.MondayGrid | apps/web/src/lib/charting.ts:43-46 | the getUTCDay shift is the floor to a 7-day grid anchored on a Monday |
| Calendar.UtcReadsBack | apps/web/src/lib/charting.ts:39-50 | Date.UTC of a date's parts is that midnight moved by the century shift, so the midnight itself exactly outside the years 0 to 99 |
| Calendar.CenturyShiftIs | apps/web/src/lib/charting.ts:39-50 | the shift is nothing outside those years; inside them 693,960 days, one more in January and February of the year 0 |
| Calendar.BucketClosedForm | apps/web/src/lib/charting.ts:36-56 | at every resolution the bucket is the start of its interval plus the shift |
| Calendar.BucketFloorIff | apps/web/src/lib/charting.ts:36-56 | bucket <= t < end of its interval, for every resolution including months, exactly for times outside the years 0 to 99 |
| Calendar.FixedBuckets | apps/web/src/lib/charting.ts:51-56 | the fixed resolutions floor to multiples of 5 and 30 minutes, 1 and 4 hours |
| Calendar.BucketIdempotentIff | apps/web/src/lib/charting.ts:36-56 | bucketing a bucket changes nothing, if and only if it is not a week that Date.UTC misreads (one of a time in the years 0 to 99, or the week in which the year 100 begins) |
| Calendar.BucketMonotoneIff | apps/web/src/lib/charting.ts:36-56 | no later time has an earlier bucket if and only if the time itself is not misread |
| Calendar.SameBucketIff | apps/web/src/lib/charting.ts:36-56 | any two times share a bucket exactly when their interval starts differ by the difference of their shifts; for times read alike, exactly when one lies in the other's interval |
| Calendar.WeekStartsMondayIff | apps/web/src/lib/charting.ts:42-47 | every week bucket is a midnight, and a Monday exactly outside the years 0 to 99 |
| Candles.BuildCandles | apps/web/src/lib/charting.ts:58-89 | the Map-filling loop over the sorted snapshots computes the specified candles |
| Candles.MergeLivePrice | apps/web/src/components/bot-detail-view.tsx:312-368 | copy, then overwrite the last candle or push one, is the specified merge; without a price and a readable time nothing changes |
| CandleMerging.BatchGroups | apps/web/src/lib/charting.ts:66-86 | one pass gives each bucket's open, max, min and close, one candle per bucket, in any order of arrival |
| CandleMerging.BatchIsGroupBy | apps/web/src/lib/charting.ts:58-89 | for any snapshots and times: the candles are exactly the groups, in the order in which the groups begin, and no other list has both properties |
| CandleMerging.BatchIncreases | apps/web/src/lib/charting.ts:58-89 | the candles are in increasing order when no later snapshot is in an earlier bucket |
| CandleMerging.PlainIsOrderly | apps/web/src/lib/charting.ts:36-89 | which is so for snapshots outside the years 0 to 99, and at fixed resolutions for all |
| LiveTicks.SameBucketIff | apps/web/src/components/bot-detail-view.tsx:336-354 | a tick in the last bucket merges to the rebuilt candles if and only if it keeps the order of the bucket's first and last snapshot or repeats their values, and no other candle begins after it |
| LiveTicks.LatestTickMerges | apps/web/src/components/bot-detail-view.tsx:336-354 | so a tick no earlier than any snapshot merges to exactly the batch with that tick |
| LiveTicks.NewBucketIff | apps/web/src/components/bot-detail-view.tsx:357-367 | a tick in a later bucket opens at the last close, which agrees with rebuilding exactly when the price is that close, its bucket has no candle and no candle begins after it |
| LiveTicks.OrderlyTick | apps/web/src/components/bot-detail-view.tsx:336-367 | when buckets follow time, a tick that is not in an earlier bucket meets those conditions on the other candles |
| LiveTicks.MergeKeepsShape | apps/web/src/components/bot-detail-view.tsx:312-368 | merging keeps candles increasing and well formed, touches only the last, adds at most one, and an older tick changes nothing |
| HistorySplice.ParseSnapshotCandles | apps/worker/src/shadow-jev-v3-replay-main.ts:157-174 | recorded candles are accepted exactly when each lasts an hour with positive prices, there are at least twenty, and they are one hourly series ending at observedAt; the parsed candles show the recorded times and prices |
| HistorySplice.ContiguousSuffix | apps/worker/src/shadow-jev-v3-replay-main.ts:175-183 | the longest suffix within the limit that runs hour by hour up to the end |
| HistorySplice.ContiguousPrefix | apps/worker/src/shadow-jev-v3-replay-main.ts:184-191 | the longest prefix within the limit that runs hour by hour from the start |
| HistorySplice.SidesInOrder | apps/worker/src/shadow-jev-v3-replay-main.ts:95-101 | before and after observedAt there is one candle for each row of that side, showing it, in the order of the rows |
| HistorySplice.PrepareMarket | apps/worker/src/shadow-jev-v3-replay-main.ts:84-107 | a market is prepared exactly under the stated condition on provenance, at least 20 hours of warm-up and a first future hour; warm-up then future is one hourly series meeting at observedAt, each part the longest of at most 80 and 24 hours, and every candle shows a row on its side of observedAt |
| Rollup.AddBot | apps/worker/src/portfolio-snapshots.ts:191-226 | one reduce step adds the bot's specified share |
| Rollup.FoldSnapshot | apps/worker/src/portfolio-snapshots.ts:190-227 | the fold computes the specified totals, with total = realised + unrealised after every bot |
| Rollup.SnapshotSums | apps/worker/src/portfolio-snapshots.ts:190-227 | every total is the sum over the bots of that figure, given in numbers: an open bot counts once with its last state, an archived one only what it closed at |
| Rollup.AlwaysBalanced | apps/worker/src/portfolio-snapshots.ts:67-227 | total = realised + unrealised after any number of bots, in snapshot, dashboard and backfill |
| Rollup.SnapshotAgainstDashboard | apps/web/src/lib/data.ts:151-308 | for any bots of one mode, snapshot and dashboard PnL differ by exactly the bots with an archive date in the future |
| Rollup.SnapshotIsDashboard | apps/web/src/lib/data.ts:214-308 | with none they agree on everything but equity, where they differ by the budgets of visible bots without a state |
| Rollup.FutureArchiveDisagrees | apps/web/src/lib/data.ts:151-177 | a bot with a future archive date on which they disagree |
| Rollup.BackfillAgainstSnapshot | apps/worker/src/portfolio-snapshots.ts:67-135 | for any bots and states, recorded before or after the bucket: the backfill differs from a snapshot of what had been recorded by then by exactly the bots without a state then, and by the active counts of latest states |
| Rollup.BackfillRowIff | apps/worker/src/portfolio-snapshots.ts:99-121 | the backfill writes a row for a bucket exactly when a bot created by then has a state recorded by then |
| Rollup.StatesByBucket | apps/worker/src/portfolio-snapshots.ts:106-117 | the states seen at a bucket are exactly those recorded by it, and the one joined is the last of them |
| Rollup.BackfillIsSnapshot | apps/worker/src/portfolio-snapshots.ts:67-135 | when every bot of that moment has a state by then, the backfill has a row and agrees with that snapshot on all but the active count |
| LabRequests.ParsedIsValid | apps/web/src/lib/backtest-lab.ts:165-295 | whatever the body, an accepted replay request satisfies every bound and enumeration |
| LabRequests.ParsedReads | apps/web/src/lib/backtest-lab.ts:165-295 | an accepted request holds what the body says, property by property, with the stated defaults and no negative amount; 5m and 30m runs are capped at 14 and 30 days |
| LabRequests.RequestWords | apps/web/src/lib/backtest-lab.ts:165-182 | a valid request has one of the three pairs, four resolutions, six lookbacks and so on, within the longest lookback of its resolution |
| LabRequests.ReplayProjection | apps/web/src/lib/backtest-lab.ts:165-295 | re-parsing an accepted request changes nothing, and the requests that read back as themselves are exactly the valid ones |
| LabTransfer.ConfigReadsBack | apps/web/src/lib/lab-draft-transfer.ts:71-130 | reading a written configuration back changes only absent options, to their defaults |
| LabTransfer.StoredConfigIff | apps/web/src/lib/lab-draft-transfer.ts:71-130 | a stored configuration is read, property by property, exactly as stated, or not at all |
| LabTransfer.StoredTransferIff | apps/web/src/lib/lab-draft-transfer.ts:161-189 | a stored transfer is read exactly when it is version 1 from the Lab with a known preset, mode, label and readable configuration, and as what it holds |
| LabTransfer.DraftShowsConfig | apps/web/src/lib/lab-draft-transfer.ts:144-233 | the draft is the configuration field by field, with two defaults, normalised capital and automatic recentering only for worker_flat |
| LabTransfer.HopKeepsDraftIff | apps/web/src/lib/lab-draft-transfer.ts:144-233 | printing, parsing and building gives the draft that building directly gives, exactly when the configuration has a recenter mode |
| LabTransfer.RequestHops | apps/web/src/lib/lab-draft-transfer.ts:132-189 | a parsed Lab request survives the hop unchanged, under the preset of its pair against USDC |
| LabTransfer.AutoOnlyForWorkerFlat | apps/web/src/lib/lab-draft-transfer.ts:191-200 | whatever was stored, the draft recenters by itself exactly for an explicit auto mode with worker_flat and a range that is not adaptive |
| LabTransfer.DraftCapitalSound | apps/web/src/lib/lab-draft-transfer.ts:201-212 | every built draft splits its budget soundly |

## Left out

- IEEE-754 effects: numbers are integers or reals, `Number.EPSILON` nudges are dropped, and NaN and infinities occur only where the request builders check for them.
- SHA-256: the digest of a request is a parameter.
- The database, its queries and transactions, HTTP, logging, clocks and environment loading.
- The strategy and reconciliation services under packages/core and the outbox's claim and retry policy: they are not part of this model.
- String.toUpperCase, String.trim and date parsing beyond ASCII: a date that does not parse is an absent value.
- Error messages: rejected responses and thrown parse errors are a plain rejection, except in the request builders, where the first error decides.
- ShadowQuestions.BuildRequest: the instruction text and the wording of the criteria, which nothing reads back, are not modelled; a criterion is its option name. Every failed finite-number check is the one error NotFinite.
- ShadowExits.BuildRequest4: likewise.
- The V1 and V2 question builders, which repeat V3 without the exit question.
- The rest of shadow-execution-quote-client.ts (quotes, routes, round-trip loss) and evaluateJevV3's timeout race.
- SymbolScheduler.SymbolRunScheduler.Schedule: a `runSymbol` that throws before returning a promise is treated like one whose promise rejects at once.
- SchedulerRuns.NoSignalLost: progress is counted in resumptions of the symbol's drain; that timers fire and runs settle is an assumption about the platform, not proved.
- RecoveryPoller.Safety: the length of the poll interval is not modelled, only that a timer is armed.
- GridRails.GeometricRails: the root Math.pow takes is a real number with the exact power.
- cloneStateSnapshot, the draft analysis and the repair of empty runtime state in bot-management.ts: field copies and one-branch checks.
- getNextGridTriggers, downsamplePoints and the percentile calibration of backtest-execution-cost.ts: short single-function facts.
- Calendar.BucketFloorIff: the range limit of Date values (about 270,000 years either way) is not modelled.
- CandleMerging.BatchIsGroupBy: snapshots whose time does not parse are not modelled.
- LiveTicks.SameBucketIff: stated when the last candle stands on its own bucket, which by Calendar.BucketIdempotentIff leaves out only misread weeks.
- Rollup.BackfillAgainstSnapshot: the SQL is modelled by its meaning; two states of one bot with the same creation time are ordered by the list, where the query leaves the choice open.
- Rollup.SnapshotAgainstDashboard: the dashboard without a mode mixes bots of both modes with paper archives; only one mode is modelled.
- LabTransfer.HopKeepsDraftIff: JSON text is taken as the record it stands for, so the printing of numbers and unknown properties are not modelled; a transfer always has a mode, so the fallback mode is not needed.
- The market and portfolio checks of the replay entry point before its candle windows.
