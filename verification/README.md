# InsightArena backend: verified models

A Dafny model of the hardest behaviour of the InsightArena backend: the settlement of
prediction markets by competing scheduler instances, the chain indexer and its recovery
from reorganisations, the dispute workflow with its weighted votes and SLA clock, and the
algorithms behind leaderboard pages, ISO weeks, single-flight caching, filter compilation,
oracle consensus and tournament brackets.

`dafny verify dfyconfig.toml` checks the whole project.

## How it is built

Each stateful protocol has three layers.

- **Step functions** on plain values (`Settlement.Next`, `Indexer.Poll`, `Disputes.Next`,
  `EventLifecycle.Next`, `SingleFlight.Next`). A step is one HTTP request, one database
  transaction, or what the runtime executes between two awaits. A request that the code
  rejects leaves the state as it is. `Run` folds steps, so a statement about `Run` is a
  statement about every interleaving.
- **Invariants and theorems** over runs.
- **Service classes and methods** with the fields and loops of the original, proved equal to
  the step functions. A scheduler sweep, for instance, is proved to be a run of claim, call
  and write-back steps, so the theorems about runs hold of it.

| files | content |
|---|---|
| `Text.dfy` | numerals, string order, splitting |
| `SettlementState.dfy`, `Settlement.dfy`, `SettlementSafety.dfy` | transition table, market rows, scheduler memory, adjudications in progress, steps, invariant |
| `SettlementTheorems.dfy`, `SettlementRecovery.dfy`, `SettlementAgreement.dfy`, `SettlementOnce.dfy` | budget, grace, freeze; who can still be claimed; agreement; a single resolution |
| `SettlementRequests.dfy` | proposals and challenges with reading and saving apart |
| `SettlementLimits.dfy` | runs that show what does not hold |
| `SettlementScheduler.dfy` | user requests and one scheduler instance |
| `Chain.dfy`, `EventRows.dfy`, `Indexer.dfy`, `IndexerSync.dfy`, `IndexerFaults.dfy` | ledgers and hashes, event rows, poll and rollback, convergence, failing stores |
| `EventLifecycle.dfy`, `Backfill.dfy` | status of an event row; backfill windows |
| `Disputes.dfy`, `DisputeSla.dfy`, `DisputeSafety.dfy`, `DisputeTheorems.dfy`, `DisputesService.dfy` | disputes, votes, SLA clock |
| `Leaderboard.dfy`, `LeaderboardListing.dfy`, `IsoWeek.dfy` | keyset pages over changing and unchanging tables, week identifiers, weekly refresh |
| `Filtering.dfy`, `FilteringRequests.dfy`, `FilteringTheorems.dfy`, `FilteringOr.dfy` | compilation of filters, which requests are accepted, its meaning, the meaning of OR |
| `Consensus.dfy`, `ConsensusService.dfy` | the winner of oracle submissions; the procedure on plain objects |
| `SingleFlight.dfy`, `Bracket.dfy` | the remaining algorithms |

What the code cannot decide is a parameter: the clock, whether a lock is free, whether the
chain or the database accepts a call, which rows a limited query returns, what a handler or
loader does, and the id of a new row.

## Findings

Where a property the code is meant to have fails, the failing family is shown and the exact
condition is proved.

- The comment that each eligible market is settled exactly once
  (`backend/src/markets/market-settlement.scheduler.ts:109-110`) does not hold: a market that
  is SETTLING may be claimed again, so two instances can both resolve it on chain
  (`TwoInstancesBothResolve`). `ClaimResolvesOnceIff` says when a claim keeps it to one
  resolution, and `FailedRowsResolveOnce` what a claimer can check in the attempt rows;
  without that there is a budget of five calls and agreement on the outcome.
- Markets can be lost to the scheduler (`backend/src/markets/market-settlement.scheduler.ts:162-187`):
  after a failed attempt whose retry entry disappears with its instance
  (`StuckAfterFailure`), and after five claims lost in crashes (`StuckWhenExhausted`).
  `StuckIff` is the exact condition.
- An adjudication checks the row, calls the chain and only then saves
  (`backend/src/markets/markets.service.ts:691-727`). Adjudicating a SETTLING market, two
  adjudications of a CHALLENGED one at the same time, and one that stops between its call
  and its save can each leave successful chain calls for different outcomes
  (`AdjudicatingSettlingDisagrees`, `OverlappingAdjudicationsDisagree`, `LostSaveDisagrees`).
  `AdjudicationSafeIff` says exactly when an adjudication is safe, `AgreementWhenCareful` what
  admins can check.
- The save of an adjudication writes back the row as it was read, so an attempt claimed in
  between is no longer counted (`OverlappingSaveLosesCount`, `CounterExactIff`).
- A challenge reads the row, checks it and saves it later without a lock
  (`backend/src/markets/markets.service.ts:640-662`), so a save that comes after a claim puts
  CHALLENGED and the old columns over the row, even over a settled one
  (`LateChallengeReopens`). `SaveHarmlessIff` says exactly which saves are harmless; runs in
  which all are refine the runs of all other theorems (`RequestsRefineRuns`), and
  `ChallengeFreezesIff` says exactly when a saved challenge freezes its market.
- A failed event query moves the cursor past the ledger it asked for, and a batch cut inside a
  ledger loses the rest of that ledger (`PollExactIff`). An event that could not be stored is
  passed over for good once a later one is (`FaultyPollExactIff`).
- The leaderboard cursor carries milliseconds while `created_at` is stored in microseconds and
  defaults to the time of the transaction
  (`backend/src/migrations/1774500002000-CreateLeaderboardEntryEntity.ts:18`). Rows of a page
  come again exactly when the page ends within a millisecond (`PageRowsReturnIff`,
  `NoRepeatsIff`). Following the cursor may then never end, for any limit: it does not get
  past a page full of rows of one score, rank and millisecond, none on the whole
  millisecond, with another row behind them (`CrowdedNeverEnds`), for example rows of one
  transaction (`OneTransactionNeverEnds`). `ListingEndsIff` proves that this is the exact
  condition, unless such a page mixes rows on and within the millisecond; then it depends on
  where the page that meets it starts (`MixedCrowdEitherWay`).
- The records of the oracle consensus are plain objects, so an outcome named like an inherited
  property is not counted. The tallies are right exactly when no submission has such a name
  (`TalliesRightIff`). One vote can win against two, for such a name (`InheritedNameWins`) and
  against it (`InheritedNameLoses`); `WhoWins` says for all submissions who wins, and
  `WinnerRightIff` when that is the winner of the rules.
- A loader that throws before returning a promise leaves its rejected computation in the
  in-flight map for good (`MapDrainsIff`, `SyncThrowIsPermanent`).

Worth knowing, although no text promises otherwise:

- Under OR, the two bounds of one range are separate alternatives (`OrPlanIff`); a plan means
  the alternative of its filters when no range gives both bounds (`OneSidedOrPlan`), and for a
  single range exactly then (`SingleRangeIff`).
- A sort field named like an inherited property is accepted without a column (`SortColumnIff`),
  a status named so fails at run time (`FirstUnknown`).

## Model

| member | source | states |
|---|---|---|
| SettlementState.WalksOnlyGoForward | backend/src/markets/market-settlement-state.util.ts:8-29 | no walk through the transition table re-enters PENDING or PROPOSED, leaves SETTLED, or connects CHALLENGED with SETTLING |
| SettlementState.ReachesIff | backend/src/markets/market-settlement-state.util.ts:8-29 | exactly which states lead to which, over walks of any length |
| SettlementSafety.NextKeepsInv | backend/src/markets/market-settlement.scheduler.ts:213-345 | every step of users, instances, crashes and retries keeps the system invariant: counters match rows, calls are tracked by attempt, memory only holds markets past their grace period |
| SettlementTheorems.SettledForever | backend/src/markets/market-settlement.scheduler.ts:293-324 | SETTLED is never left, in any run of single steps from any state, although the finalizing write looks at no state; saves that come too late are in SaveHarmlessIff |
| SettlementTheorems.AttemptBudget | backend/src/markets/market-settlement.scheduler.ts:246-272 | in every run all instances together make at most as many chain calls as there are attempt rows, never more than five, and the counter equals the rows unless the market is SETTLED |
| SettlementTheorems.CounterExactIff | backend/src/markets/markets.service.ts:713-720 | saving an adjudication leaves the counter equal to the attempt rows if and only if nothing was claimed since the row was read; no other step makes or breaks the equality |
| SettlementTheorems.CounterIsExact | backend/src/markets/market-settlement.scheduler.ts:256-268 | in every run without such a claim the counter equals the number of attempt rows |
| SettlementTheorems.DeadlineIsFixed | backend/src/markets/markets.service.ts:585-613 | once proposed, the end of the grace period never changes in any run |
| SettlementTheorems.NoActionInGracePeriod | backend/src/markets/market-settlement.scheduler.ts:57-187 | no instance claims a market or calls the chain for it before its grace period is over, whichever in-memory list, retry or recovery led there |
| SettlementTheorems.ChallengeFreezes | backend/src/markets/markets.service.ts:635-661 | a CHALLENGED market stays exactly as it is, calls included, through every run without an adjudication of it |
| SettlementRequests.SaveHarmlessIff | backend/src/markets/markets.service.ts:640-662 | saving a proposal or a challenge does what some single step does, or nothing, if and only if the row still has the state that was read or the save changes nothing |
| SettlementRequests.ChallengeInTimeIff | backend/src/markets/markets.service.ts:640-662 | for a challenge that is exactly while the market is PROPOSED or CHALLENGED |
| SettlementRequests.RequestsRefineRuns | backend/src/markets/markets.service.ts:560-662 | a run with separate readings and savings, all of them in time, has the rows, settlements and memory of a run of single steps |
| SettlementRequests.ChallengeFreezesIff | backend/src/markets/markets.service.ts:659-662 | saving a challenge, in time or not, freezes the market through every run without its adjudication if and only if no settlement of it is in progress |
| SettlementRequests.ChallengeFreezesInTime | backend/src/markets/markets.service.ts:635-662 | a CHALLENGED market stays exactly as it is through every run of separate readings and savings in which all saves are in time and none adjudicates it |
| SettlementLimits.LateChallengeReopens | backend/src/markets/markets.service.ts:640-662 | a run in which a challenge read before a claim is saved after the settlement and makes the settled market CHALLENGED and unresolved |
| SettlementAgreement.SettlementAgreement | backend/src/markets/market-settlement.scheduler.ts:347-377 | in every interleaving with safe adjudications, all successful chain calls and the stored outcome name one single option |
| SettlementAgreement.AgreementWhenCareful | backend/src/markets/markets.service.ts:680-727 | agreement holds in every run in which SETTLING markets are adjudicated for their proposal only, overlapping adjudications of a CHALLENGED market name one outcome, and none of them stops between its call and its save |
| SettlementAgreement.AdjudicationSafeIff | backend/src/markets/markets.service.ts:691-727 | an accepted adjudication keeps agreement in all continuations without a further one if and only if every success, settlement and adjudication so far names its outcome, and so does the proposal of a SETTLING market that can still be claimed |
| SettlementAgreement.ProposedIsSafe | backend/src/markets/markets.service.ts:691-693 | adjudicating a SETTLING market for its proposed outcome is always safe when admins have been careful |
| SettlementLimits.TwoInstancesBothResolve | backend/src/markets/market-settlement.scheduler.ts:105-113 | a run in which two instances both resolve one market on chain |
| SettlementOnce.ClaimResolvesOnceIff | backend/src/markets/market-settlement.scheduler.ts:213-286 | a claim keeps the market resolved at most once by the scheduler, in all continuations without another claim, if and only if the scheduler has not resolved it and no other settlement of it is about to call |
| SettlementOnce.ResolvedAtMostOnce | backend/src/markets/market-settlement.scheduler.ts:105-113 | in every run whose claims meet that condition the scheduler resolves a market at most once |
| SettlementOnce.FailedRowsResolveOnce | backend/src/markets/market-settlement.scheduler.ts:222-264 | after any run, when all attempt rows of the market are FAILED, nobody else has resolved it or is about to, and a claim keeps it resolved at most once until the next claim |
| SettlementOnce.FailedRowsRunOnce | backend/src/markets/market-settlement.scheduler.ts:222-264 | in every run whose claims see only FAILED attempt rows the scheduler resolves a market at most once |
| SettlementLimits.AdjudicatingSettlingDisagrees | backend/src/markets/markets.service.ts:691-700 | a run in which adjudicating a SETTLING market makes the chain calls disagree |
| SettlementLimits.OverlappingAdjudicationsDisagree | backend/src/markets/markets.service.ts:689-709 | a run in which two admins who both read a CHALLENGED market resolve it for different outcomes |
| SettlementLimits.LostSaveDisagrees | backend/src/markets/markets.service.ts:704-720 | the same one after the other, when the first stops between its call and its save |
| SettlementLimits.OverlappingSaveLosesCount | backend/src/markets/markets.service.ts:689-720 | a run in which saving an adjudication leaves a counter of one with two attempts |
| SettlementRecovery.StuckIff | backend/src/markets/market-settlement.scheduler.ts:162-187 | some run without an adjudication changes the row of a reachable SETTLING market if and only if a settlement of it is in progress, or an attempt is left and its last attempt is unfinished or an instance holds it |
| SettlementRecovery.ClaimedAgainIff | backend/src/markets/market-settlement.scheduler.ts:222-249 | some such run claims it again if and only if an attempt is left and it is stale at some time, held by an instance, or being settled without a success so far |
| SettlementLimits.StuckAfterFailure | backend/src/markets/market-settlement.scheduler.ts:364-373 | one failed call followed by the stop of the instances leaves a market stuck with attempts to spare |
| SettlementLimits.StuckWhenExhausted | backend/src/markets/market-settlement.scheduler.ts:246-252 | five claims that were lost in crashes leave a market stuck whose last attempt is unfinished |
| SettlementScheduler.ProposeResolution | backend/src/markets/markets.service.ts:560-615 | when exactly a proposal is rejected, and why, in the order of the code; otherwise the state, the outcome, the time and the grace period asked for are stored and nothing else changes |
| SettlementScheduler.ChallengeResolution | backend/src/markets/markets.service.ts:635-661 | a challenge is accepted if and only if the market is PROPOSED and its proposal no older than the grace period; only the state changes |
| SettlementScheduler.ReadForAdjudication | backend/src/markets/markets.service.ts:680-706 | the row is read if and only if an admin adjudicates a SETTLING or CHALLENGED market for one of its options |
| SettlementScheduler.ProposalStays | backend/src/markets/markets.service.ts:689-720 | whatever runs between the reading and the saving of an adjudication, the proposal columns of the row are those that were read |
| SettlementScheduler.SaveRow | backend/src/markets/markets.service.ts:713-720 | every column that was read is saved back, with the market settled for the outcome, whatever happened to it meanwhile |
| SettlementScheduler.ResolveChallenge | backend/src/markets/markets.service.ts:680-727 | the request is a run of its begin, call and save steps and succeeds exactly when its checks pass and the chain accepts |
| SettlementScheduler.Scheduler.ClaimMarketForSettlement | backend/src/markets/market-settlement.scheduler.ts:213-286 | a claim succeeds if and only if the lock is free and the market is PROPOSED or SETTLING with a proposal and fewer than five attempts; it then adds one open attempt, counts it, and changes nothing else but the state |
| SettlementScheduler.Scheduler.FinalizeSettlement | backend/src/markets/market-settlement.scheduler.ts:293-324 | the market is resolved for the attempt's outcome and can be neither claimed, challenged nor adjudicated any more; proposal, deadline, calls, counter and all other attempts stay |
| SettlementScheduler.Scheduler.RecordAttemptFailure | backend/src/markets/market-settlement.scheduler.ts:336-345 | everything of the market but the status of that attempt stays, and a failed last attempt is no longer stale |
| SettlementScheduler.Scheduler.AddToRetryQueue | backend/src/markets/market-settlement.scheduler.ts:404-414 | the market is queued, a new entry waits one minute, and an entry that was there keeps its attempts and its back-off |
| SettlementScheduler.Scheduler.SettleMarket | backend/src/markets/market-settlement.scheduler.ts:347-377 | a market that can be claimed ends settled for its proposal, or with a failed attempt and in the retry queue, or with an open attempt when the last write is lost, depending on the chain and that write; any other is left alone |
| SettlementScheduler.Scheduler.SettleMarketWithRetry | backend/src/markets/market-settlement.scheduler.ts:385-399 | as SettleMarket, and a queued market that is not settled has one retry more and waits a minute times two to the number of its retries |
| SettlementScheduler.BackoffDoubles | backend/src/markets/market-settlement.scheduler.ts:419-422 | the first retry waits one minute and each further one twice as long as the one before |
| SettlementScheduler.Scheduler.FindMarkets | backend/src/markets/market-settlement.scheduler.ts:114-187 | of the two pages a proposed market is in the sweep if and only if its proposal time is set and that time plus the grace period is over, a settling one if and only if its last attempt has been open for five minutes |
| SettlementScheduler.Scheduler.SettleEligibleMarkets | backend/src/markets/market-settlement.scheduler.ts:114-154 | a sweep tries exactly those markets that also have a proposal, an attempt left and a free lock, with what SettleMarket says of each, and touches no other; its count is the number of markets it settled; it is a run of scheduler steps even when writes fail |
| SettlementScheduler.Scheduler.ProcessRetries | backend/src/markets/market-settlement.scheduler.ts:57-87 | a pass ends early if and only if a last write fails; otherwise the entries whose back-off is over leave the queue when the market is gone or settled and count one retry with its back-off if not, all other entries stay, and the rows are as SettleMarket says; it is a run of scheduler steps |
| SettlementScheduler.Scheduler.RetrySettlement | backend/src/markets/market-settlement.scheduler.ts:434-453 | a manual retry needs a known and queued market; that market leaves the queue if it is settled and counts one retry if not; it is a run of scheduler steps |
| Indexer.Service.DetectAndHandleReorg | backend/src/indexer/indexer.service.ts:1423-1478 | rolls back if and only if the chain still has the last indexed ledger, with another hash than the stored one; then exactly the rows up to the fork point remain, and both checkpoints are there |
| Indexer.Service.StoreAndProcessEvent | backend/src/indexer/indexer.service.ts:604-660 | an event that was not processed is stored and its handler run: PROCESSED with its failures as they were if that succeeds, otherwise one failure more, FAILED up to four and dead-lettered from five; a processed one is left alone, and no other row changes |
| Indexer.Service.SaveProgress | backend/src/indexer/indexer.service.ts:253-268 | the cursor is there, the checkpoint at the higher of the two ledgers, and the stored hash is that of the ledger if the lookup finds it |
| Indexer.Service.IndexNewEvents | backend/src/indexer/indexer.service.ts:193-253 | one batch is fetched, stored and passed by the cursor; the latest-ledger checkpoint becomes the chain's head when that is ahead of the cursor, and the ledger after the cursor when the query fails |
| Indexer.Service.PollContractEvents | backend/src/indexer/indexer.service.ts:169-279 | one poll, with its loop that passes over events it cannot store, is the poll step |
| Indexer.PollWithoutFaults | backend/src/indexer/indexer.service.ts:231-253 | on a database that does not fail it stores the whole batch and moves to its highest ledger |
| IndexerSync.PollExactIff | backend/src/indexer/indexer.service.ts:193-266 | after a poll that can store what it fetched the rows are exactly the events up to the cursor if and only if the query succeeded without cutting a ledger, or failed at a ledger without events |
| IndexerFaults.FaultyPollExactIff | backend/src/indexer/indexer.service.ts:226-266 | when stores fail, the cursor is the highest ledger stored without an error, and the rows are exactly the events up to it if and only if the kept events are exactly those up to it and it is not cut |
| IndexerSync.ReorgDetectedIff | backend/src/indexer/indexer.service.ts:1427-1439 | a reorganisation is detected if and only if the chain reaches the cursor and differs from the indexed history below it |
| IndexerSync.RollbackLeaves | backend/src/indexer/indexer.service.ts:1441-1461 | both checkpoints at max(0, previous - depth), no row above, and the remaining rows are the new chain's exactly when both histories hold the same events up to there |
| IndexerSync.PollKeepsSync | backend/src/indexer/indexer.service.ts:183-266 | a poll keeps the rows, the cursor and the stored hash in step with the chain it sees, also through a fork within the depth |
| IndexerSync.PollRunStaysInStep | backend/src/indexer/indexer.service.ts:168-279 | through any sequence of polls and forks within the depth, the stored events are exactly the last chain's up to the cursor |
| IndexerSync.ReorgConvergence | backend/src/indexer/indexer.service.ts:1408-1478 | after such a fork finitely many polls restore equality with the whole new chain, both checkpoints at its head |
| EventLifecycle.FailureCounts | backend/src/indexer/indexer.service.ts:643-659 | after any mix of steps FAILED rows have one to four failures and dead-lettered rows at least five, so the bulk retry runs the handlers of exactly the FAILED rows |
| EventLifecycle.ProcessedOnce | backend/src/indexer/indexer.service.ts:612-617 | while its row exists, a processed event's handler never runs again and the row does not change |
| EventLifecycle.DeliverySettles | backend/src/indexer/indexer.service.ts:604-660 | after a delivery of an event that was not processed its row is PROCESSED if and only if the handler succeeded, otherwise it has one failure more and is FAILED up to four, dead-lettered from five |
| EventLifecycle.HandledOnce | backend/src/indexer/indexer.service.ts:612-617 | a delivery whose handler succeeds is followed by no further run of that handler while the row exists |
| EventLifecycle.InterruptedIsDeliveredAgain | backend/src/indexer/indexer.service.ts:620-637 | after an interrupted delivery the event is still not processed, its failures and status are as they were or those of a new PENDING row, and the next delivery runs its handler |
| EventLifecycle.FailuresAddUp | backend/src/indexer/indexer.service.ts:643-658 | failing deliveries add up, and the one that makes five failures dead-letters the event |
| EventLifecycle.RemovedIff | backend/src/indexer/indexer.service.ts:1677-1688 | a row disappears if and only if a rollback goes below its ledger or a clean-up finds it processed and expired |
| EventLifecycle.RepairedGapIsDelivered | backend/src/indexer/reconciliation.service.ts:194-219 | a row inserted for a missing event is PENDING and passed over by the bulk retry; the next delivery runs its handler |
| EventLifecycle.RetryFailedEvents | backend/src/indexer/indexer.service.ts:1651-1675 | the loop performs the bulk-retry step and reports how many rows it selected |
| Backfill.BackfillReachIff | backend/src/indexer/indexer.service.ts:1713-1726 | with successful queries every event of the range is delivered if and only if no window holds more than 100 events, despite overlapping unbounded batches |
| Backfill.SparseChainFits | backend/src/indexer/indexer.service.ts:1713-1714 | that is so when no 51 consecutive ledgers hold more than 100 events |
| Backfill.BackfillEvent | backend/src/indexer/indexer.service.ts:1731-1753 | a processed event counts as already indexed, a failing lookup or store as an error, any other event as newly processed; it is stored as a poll stores it |
| Backfill.BackfillBatch | backend/src/indexer/indexer.service.ts:1724-1759 | one batch tries its events up to the end of the range, or up to a lookup that throws, in order |
| Backfill.BackfillEvents | backend/src/indexer/indexer.service.ts:1694-1774 | the total is the number of events tried over all windows; the three counts are how many of these met a processed row, a database error, or neither; the rows are those after trying them in order |
| Backfill.BackfillDoes | backend/src/indexer/indexer.service.ts:1694-1774 | no row is lost, only places of the range are added, the counts add up to the total, and without faults there is no error and exactly the delivered places are there |
| Backfill.BackfillIsIdempotent | backend/src/indexer/indexer.service.ts:1694-1774 | a backfill in which nothing fails leaves every delivered event PROCESSED and counts as new exactly those that were not; a second one changes nothing and counts all as already indexed |
| DisputeSafety.NextKeepsInv | backend/src/disputes/disputes.service.ts:103-520 | every request and sweep keeps the invariant of paths, votes, tallies and clocks |
| DisputeSafety.PendingChainIsComplete | backend/src/disputes/disputes.service.ts:463-477 | from a pending dispute the parent walk returns every dispute of its market and nothing else |
| DisputeTheorems.EscalationPath | backend/src/disputes/disputes.service.ts:360-439 | after any run the disputes of a market form one path of tiers 1..k, k at most 3, one child each, only the last possibly pending |
| DisputeTheorems.NeverPendingAgain | backend/src/disputes/disputes.service.ts:282-304 | a dispute that is not pending never becomes pending again |
| DisputeTheorems.OneVotePerChain | backend/src/disputes/disputes.service.ts:230-273 | after any run no wallet has two votes among the disputes of one market |
| DisputeTheorems.QuorumDecides | backend/src/disputes/disputes.service.ts:484-520 | pending disputes are below a positive threshold; vote-closed ones reached it, went to the heavier side with ties upheld, and that side carries at least half of it |
| DisputeTheorems.QuorumFollowsTier | backend/src/disputes/disputes.service.ts:441-455 | after any run the threshold of a dispute is the base weight for tier 1 and the multiplier times more for each higher tier, rounded to the nearest integer |
| DisputeTheorems.ZeroWeightVotesChangeNothing | backend/src/disputes/disputes.service.ts:219-273 | ballots without weight change neither the final row nor which ballot finalizes the dispute |
| DisputeTheorems.SlaInEveryRun | backend/src/disputes/disputes.service.ts:916-1030 | the SLA promises hold of every dispute after any mix of requests and sweeps |
| DisputeSla.SlaRun | backend/src/disputes/disputes.service.ts:961-1030 | over any sweeps: breach time unset exactly in initial review, at most one escalation, one approaching notice per stage, breach notices at least the interval apart |
| DisputeSla.EvaluatesExactly | backend/src/disputes/disputes.service.ts:961-1030 | an evaluation sends a breach notice if and only if the deadline has passed and none was sent or the last is the interval old, an approaching notice if and only if the deadline is within the window and this stage had none; the outcome names it; exactly the first breach escalates, with the deadline the escalation hours away |
| DisputeSla.BreachIsOnRecord | backend/src/disputes/disputes.service.ts:991-1030 | after any sweeps of which the last came past the deadline there is a breach notice of that sweep or younger than the interval |
| DisputeSla.FirstBreachEscalates | backend/src/disputes/disputes.service.ts:991-1013 | with non-decreasing sweep times a dispute is escalated if and only if the last sweep reached its initial deadline |
| DisputesService.Service.GetChainDisputeIds | backend/src/disputes/disputes.service.ts:463-477 | the walk ends because the tier decreases and returns the chain |
| DisputesService.Service.TryFinalizeByQuorum | backend/src/disputes/disputes.service.ts:484-520 | the tally loop closes the dispute exactly at its quorum, for the heavier side |
| DisputesService.Service.Vote | backend/src/disputes/disputes.service.ts:230-273 | a vote is accepted if and only if the dispute is pending, the voter has an address, and it has not voted in this chain; it counts with its reputation, and the dispute is resolved for the heavier side once its quorum is reached |
| DisputesService.Service.Create | backend/src/disputes/disputes.service.ts:103-163 | a dispute is raised only once per market, in the window after its resolution, at tier 1 with a fresh clock; each rejection in its case |
| DisputesService.Service.Resolve | backend/src/disputes/disputes.service.ts:180-200 | an admin closes exactly pending disputes, with the given resolution, and changes no other |
| DisputesService.Service.TransitionStatus | backend/src/disputes/disputes.service.ts:334-350 | a status changes exactly along the seven listed transitions |
| DisputesService.Service.EscalateDispute | backend/src/disputes/disputes.service.ts:360-439 | accepted if and only if the tier is below three, the target is the next tier, the status allows it inside the window, and there is no escalation yet; the tier closes and the next one opens with its own quorum and clock |
| DisputesService.Service.RunSlaCheck | backend/src/disputes/disputes.service.ts:916-959 | the sweep sends every pending dispute exactly the notice that is due, reports as many approaching, breached and escalated ones as there are, and changes nothing but their clocks |
| Leaderboard.DecodeEncode | backend/src/leaderboard/leaderboard.service.ts:280-326 | decoding a cursor gives its row back to the millisecond for non-empty colon-free ids, and fails for all others |
| Leaderboard.CursorRoundTripIff | backend/src/leaderboard/leaderboard.service.ts:280-326 | the round trip is exact if and only if the id is non-empty and colon-free and the time is whole milliseconds |
| Leaderboard.CursorsTraverse | backend/src/leaderboard/leaderboard.service.ts:361-428 | following the cursor texts of the responses is the same as going on behind the rows they stand for, and stops at an id that cannot be decoded |
| Leaderboard.PageTellsWhatIsLeft | backend/src/leaderboard/leaderboard.service.ts:385-428 | a page holds the first rows behind its cursor, and says that there are more, with a cursor, if and only if a row behind the cursor is left |
| Leaderboard.OrderIsByColumns | backend/src/leaderboard/leaderboard.service.ts:353-365 | higher scores come first, then lower ranks, earlier rows and lesser users |
| Leaderboard.StableRowIsReturned | backend/src/leaderboard/leaderboard.service.ts:367-430 | a row that stays unchanged through a traversal is never skipped, whatever happens to the others between pages |
| Leaderboard.StableRowsExactlyOnce | backend/src/leaderboard/leaderboard.service.ts:333-437 | when every page with a successor ends on a whole millisecond the traversal is in leaderboard order without repetition and returns every stable row exactly once |
| Leaderboard.NoRepeatsIff | backend/src/leaderboard/leaderboard.service.ts:280-295 | a traversal in which the last rows of pages stay returns no row twice if and only if every page with a successor ends on a whole millisecond |
| LeaderboardListing.CleanTableIsListed | backend/src/leaderboard/leaderboard.service.ts:333-437 | over an unchanging table with colon-free ids and whole-millisecond times, following the cursor ends and returns exactly the table in order, for every limit of at least one |
| LeaderboardListing.ListingIsTable | backend/src/leaderboard/leaderboard.service.ts:333-437 | whatever is listed to the end over an unchanging table is exactly the table, and without repetition if and only if its pages end on whole milliseconds |
| LeaderboardListing.ListingEndsIff | backend/src/leaderboard/leaderboard.service.ts:367-428 | following the cursor over an unchanging table with colon-free ids ends if and only if no page full of rows of one score, rank and millisecond, none on the whole millisecond, has a row behind it; for tables in which no such page mixes rows on and within the millisecond |
| LeaderboardListing.OneRowPagesEndIff | backend/src/leaderboard/leaderboard.service.ts:367-428 | for pages of one row that is the exact condition for all tables with colon-free ids |
| LeaderboardListing.CrowdedNeverEnds | backend/src/leaderboard/leaderboard.service.ts:286-295 | such a page is never passed, whatever the ids and whatever stands before and behind it |
| LeaderboardListing.OnlyWholeCrowdsEnd | backend/src/leaderboard/leaderboard.service.ts:367-428 | a listing ends if every such page is of whole milliseconds |
| LeaderboardListing.MixedCrowdEitherWay | backend/src/leaderboard/leaderboard.service.ts:286-295 | one and the same mixed page stops the listing of one table and not that of another, which has one more row in front |
| LeaderboardListing.FirstPageRepeatsIff | backend/src/leaderboard/leaderboard.service.ts:286-295 | for every limit the first page of an unchanging table leads back to itself if and only if the truncated time of its last row puts the cursor ahead of its first row |
| LeaderboardListing.RepeatingPageNeverEnds | backend/src/leaderboard/leaderboard.service.ts:367-430 | such a table is never listed to the end |
| LeaderboardListing.OneTransactionNeverEnds | backend/src/migrations/1774500002000-CreateLeaderboardEntryEntity.ts:18 | more rows than a page holds, with equal score, rank and a time within a millisecond, are never listed to the end |
| Leaderboard.PageRowsReturnIff | backend/src/leaderboard/leaderboard.service.ts:286-295 | no row of a page is selected again by the next page if and only if the last row of the page was created on a whole millisecond |
| IsoWeek.WeekNumberRange | backend/src/leaderboard/leaderboard.service.ts:1268-1271 | the week number is between 1 and 53 |
| IsoWeek.GregorianCalendar | backend/src/leaderboard/leaderboard.service.ts:1262-1271 | day 0 is 1 January 1970 and leap years follow the Gregorian rule |
| IsoWeek.IdText | backend/src/leaderboard/leaderboard.service.ts:1262-1273 | the identifier is the year of the Thursday, "-W" and the week number in two digits |
| IsoWeek.ThursdayIsNear | backend/src/leaderboard/leaderboard.service.ts:1262-1267 | that Thursday lies in the same Monday-to-Sunday week |
| IsoWeek.SameIdIffSameWeek | backend/src/leaderboard/leaderboard.service.ts:1262-1273 | two days have the same identifier text if and only if they lie in the same Monday-to-Sunday week |
| IsoWeek.WeekOneHoldsJanuaryFourth | backend/src/leaderboard/leaderboard.service.ts:1262-1273 | week 1 of a year is the week of 4 January |
| IsoWeek.NextWeekIsNextNumber | backend/src/leaderboard/leaderboard.service.ts:1262-1273 | weeks are numbered consecutively and restart at 1 |
| IsoWeek.CoachCache.RefreshWeeklyCoachInsights | backend/src/leaderboard/leaderboard.service.ts:1227-1253 | after the refresh no listed user has last week's entry, every user whose insights were computed has this week's, every other entry is as before, and the count is the number of those computed |
| SingleFlight.OneLoaderPerKey | backend/src/cache/cache.service.ts:33-63 | in every interleaving at most one computation per key runs, and a key is in the map exactly while one runs or after a synchronous throw |
| SingleFlight.MapDrainsIff | backend/src/cache/cache.service.ts:51-62 | when all computations have ended the map is empty if and only if no loader threw synchronously |
| SingleFlight.JoinersShareTheResult | backend/src/cache/cache.service.ts:45-62 | a caller that joined gets the result or error of that very computation; a cached value was loaded for its key |
| SingleFlight.WriteStores | backend/src/cache/cache.service.ts:53-54 | the end of a cache write stores exactly the loaded value under its key, nothing if it failed, and changes no other key |
| SingleFlight.WrittenValueIsServed | backend/src/cache/cache.service.ts:40-43 | until the key is evicted or written again every read that hits answers with exactly that value and starts nothing |
| SingleFlight.ColdCallCaches | backend/src/cache/cache.service.ts:40-63 | an undisturbed call on a cold key loads once, answers with the value, caches it and leaves nothing in flight |
| SingleFlight.SyncThrowIsPermanent | backend/src/cache/cache.service.ts:51-61 | after a synchronous throw no computation for that key is ever started again |
| SingleFlight.SyncThrowIsReachable | backend/src/cache/cache.service.ts:51-61 | one call reaches that state |
| SingleFlight.CacheService.JoinOrStart | backend/src/cache/cache.service.ts:45-62 | after a miss the caller awaits the computation in flight for its key, or a new one that is registered under it |
| SingleFlight.CacheService.OnLoaderSettled | backend/src/cache/cache.service.ts:52-58 | a loaded value goes on to be cached and stays registered, an error ends the computation and frees the key |
| SingleFlight.CacheService.OnWriteSettled | backend/src/cache/cache.service.ts:54-58 | the computation ends with the value or the write error and frees the key; the value is in the cache exactly if the write succeeded |
| Filtering.BuildFilterPlan | backend/src/common/filtering.service.ts:79-188 | the loops push exactly the clauses of the compilation function, with every rejection in the code's order |
| Filtering.BuildRanges | backend/src/common/filtering.service.ts:90-116 | the same for date and numeric ranges |
| FilteringRequests.AcceptedIff | backend/src/common/filtering.service.ts:79-302 | a request is compiled if and only if its fields are configured with the right kind, its bounds parse and are in order, its statuses are known, its addresses are not blank, its booleans spell true or false, and its sort is allowed |
| FilteringRequests.RejectedFor | backend/src/common/filtering.service.ts:87-302 | a request is rejected for its combination first, then for an unknown field, then for its filters, and last for its sort field or direction |
| FilteringRequests.RangeRejectedFor | backend/src/common/filtering.service.ts:90-142 | a range is rejected for the kind of its field, else for a bound that does not parse, else for bounds out of order |
| FilteringRequests.SortIs | backend/src/common/filtering.service.ts:278-302 | the sort has the column of its field and goes up if and only if "asc" is asked for in any case |
| FilteringRequests.TrimIs | backend/src/common/filtering.service.ts:155-163 | trimming takes the white space off both ends and nothing else |
| FilteringRequests.NumbersInRange | backend/src/common/filtering.service.ts:127-152 | on numbers a range means its bounds, and a missing value is in none |
| FilteringRequests.DatesInRange | backend/src/common/filtering.service.ts:90-116 | the same for dates |
| FilteringRequests.AddressIsIn | backend/src/common/filtering.service.ts:155-172 | a row is in an address set if its text is one of the given ones, trimmed and in any case |
| FilteringRequests.BooleanIsHeld | backend/src/common/filtering.service.ts:377-395 | a row has a boolean if its column holds the value that was given or spelled |
| FilteringRequests.StatusIsHeld | backend/src/common/filtering.service.ts:246-276 | a status holds if every one of its conditions does, NULL only by IS and IS NOT |
| FilteringTheorems.PlanNamesAreDistinct | backend/src/common/filtering.service.ts:118-125 | no parameter name is used by two clauses of a plan, the status block included |
| FilteringTheorems.OneEnvironmentIsEnough | backend/src/common/filtering.service.ts:190-222 | a clause means the same under the merged parameters of the query as under its own |
| FilteringTheorems.AndPlanMeansRequest | backend/src/common/filtering.service.ts:79-222 | an AND plan accepts a row if and only if it is in every range and address set, has every boolean, and has one of the statuses if any are given |
| FilteringTheorems.OrPlanMeansAnyRequirement | backend/src/common/filtering.service.ts:197-214 | an OR plan accepts a row if and only if it meets one of the single requirements or there are none |
| FilteringTheorems.SortColumnIff | backend/src/common/filtering.service.ts:278-302 | the sort of a plan has a column if and only if the field is configured; otherwise the field is an inherited name |
| FilteringOr.OrPlanIff | backend/src/common/filtering.service.ts:197-214 | an OR plan accepts a row if and only if nothing is asked, some filter holds as a whole, or the row meets one of the two bounds of a range |
| FilteringOr.OneSidedOrPlan | backend/src/common/filtering.service.ts:90-116 | when no range gives both bounds an OR plan is the alternative of the filters |
| FilteringOr.SingleRangeIff | backend/src/common/filtering.service.ts:127-152 | an OR plan for one numeric range accepts exactly the rows in the range if and only if a bound is missing |
| ConsensusService.ResolveConsensus | backend/src/matches/creator-event-finalizer.service.ts:78-133 | below the quorum it fails; otherwise the tallies are right if and only if no outcome is an inherited name, and then the winner has most votes, then the earliest first submission, then the least label; for all other submissions the winner is the one of WhoWins |
| ConsensusService.TalliesRightIff | backend/src/matches/creator-event-finalizer.service.ts:85-95 | the record has exactly the named outcomes with their numbers of submissions if and only if no submission names a property that plain objects inherit |
| ConsensusService.WhoWins | backend/src/matches/creator-event-finalizer.service.ts:97-125 | for all submissions: if the least label is not inherited, the winner among the submissions that are not; otherwise the inherited name whose count, a text, comes last |
| ConsensusService.WinnerRightIff | backend/src/matches/creator-event-finalizer.service.ts:67-125 | that is the winner of the rules if and only if, with a plain least label, the true winner is not inherited, and otherwise is inherited and its text leads |
| ConsensusService.NobodyWinsIff | backend/src/matches/creator-event-finalizer.service.ts:97-99 | there is no winner if and only if every submission names the prototype |
| ConsensusService.InheritedNameWins | backend/src/matches/creator-event-finalizer.service.ts:89-113 | one submission for "constructor" wins over two for "yes" |
| ConsensusService.InheritedNameLoses | backend/src/matches/creator-event-finalizer.service.ts:89-113 | one submission for "a" wins over two for "toString" |
| ConsensusService.TallySubmissions | backend/src/matches/creator-event-finalizer.service.ts:85-95 | the loop fills the two records as the reading and writing of plain objects has it |
| ConsensusService.PlainRecords | backend/src/matches/creator-event-finalizer.service.ts:85-95 | under names that are not inherited the records hold the numbers of submissions and the earliest times |
| ConsensusService.InheritedCount | backend/src/matches/creator-event-finalizer.service.ts:89-90 | under an inherited name the tally holds the text of the function with one digit for every submission |
| ConsensusService.SortedOutcomes | backend/src/matches/creator-event-finalizer.service.ts:97-97 | the outcomes in strictly ascending order, none missing |
| ConsensusService.PickWinner | backend/src/matches/creator-event-finalizer.service.ts:98-125 | the loop is the scan that keeps the better of two by the comparisons of the language |
| ConsensusService.ScanWins | backend/src/matches/creator-event-finalizer.service.ts:98-125 | without inherited names that scan ends with the outcome that beats all others in the tie-break order |
| Consensus.WinnerIsUnique | backend/src/matches/creator-event-finalizer.service.ts:67-77 | the tie-break rules leave exactly one possible winner |
| Consensus.WinnerFollowsRules | backend/src/matches/creator-event-finalizer.service.ts:67-77 | nobody has more votes than the winner, nobody with as many was earlier, nobody with as many and as early has a lesser label |
| Text.LessIff | backend/src/matches/creator-event-finalizer.service.ts:97-97 | strings are ordered by the first place where they differ, a prefix coming first |
| Consensus.ConsensusIgnoresOrder | backend/src/matches/creator-event-finalizer.service.ts:78-133 | any permutation of the submissions has the same winner and the same tallies |
| Consensus.TalliesAddUp | backend/src/matches/creator-event-finalizer.service.ts:85-95 | the tallies add up to the number of submissions |
| Bracket.GenerateBracket | backend/src/competitions/competitions.service.ts:570-651 | the loops build exactly the specified bracket without running past the participants; fewer than two are rejected |
| Bracket.SizeFits | backend/src/competitions/competitions.service.ts:576-579 | the bracket size is the smallest power of two that holds everyone |
| Bracket.EveryoneIsPlacedOnce | backend/src/competitions/competitions.service.ts:602-618 | the first-round slots in order are exactly the participants in seed order |
| Bracket.ByesGoToTopSeeds | backend/src/competitions/competitions.service.ts:605-632 | the byes go exactly to the top bracketSize - n seeds, who win them |
| Bracket.MatchupCounts | backend/src/competitions/competitions.service.ts:621-651 | there are bracketSize - 1 matchups over all rounds, n - 1 of them not byes |
| Bracket.MatchupsAreNumbered | backend/src/competitions/competitions.service.ts:602-651 | the rounds come in order, round r has 2^(total - r) matchups numbered from one, and those after the first are open |

## Left out

- SettlementRequests.RequestsRefineRuns: runs that go on after a late save are only shown by example, apart from the freeze.
- Dispute requests are one step each; only those on markets are split into reading and saving.
- A chain call either takes effect and reports success or does neither; a call that takes effect but reports an error is not modelled.
- Direct resolution paths that bypass the settlement state, cancellation, webhooks and notifications beyond the notice log of the SLA clock.
- Indexer.Service.PollContractEvents: every event can be parsed and carries its own log index, the query returns events in chain order, and saving a checkpoint does not fail.
- IndexerSync.PollRunStaysInStep: hash lookups and stores succeed; a chain shorter than the cursor is outside the statement because it is not detected (ReorgDetectedIff).
- Reconciliation runs that move the checkpoint by themselves; of them only the insertion of missing rows appears, in EventLifecycle.
- What the event handlers do to other tables; a handler only succeeds or fails.
- DisputeSla.SlaRun: hours are added as fixed milliseconds, so daylight-saving shifts are not modelled, and saving or sending never fails.
- Leaderboard.DecodeEncode: base64 wrapping is left out as a bijection, and number texts other than decimal integers (fractions, exponents, white space) are read as invalid.
- LeaderboardListing.ListingEndsIff: for tables in which a page full of rows of one moment mixes rows on and within the millisecond, the only exact statement is about the listing itself (EndsWithinTable), because such a page can be passed or not (MixedCrowdEitherWay).
- The cached first leaderboard page, whose key ignores the limit; pages are read uncached.
- IsoWeek.SameIdIffSameWeek: does not model that Date.UTC reads the years 0 to 99 as 1900 to 1999.
- Filtering.BuildFilterPlan: clauses are syntax trees, not SQL text; a status configured without conditions, whose text would be an empty group, counts as always satisfied; parsing of dates and numbers is a parameter, and letters change case as in ASCII.
- ConsensusService.ResolveConsensus: the text of an inherited function is never a numeral, so comparing it with a number is comparing with NaN.
- Bracket.GenerateBracket: the logarithm is exact, round names and saving are left out.
- HTTP plumbing, authentication details, evidence, listings, metrics, float percentages, trending scores and the frontend: easy members or no deep claim.
