# Basilisk DeFi pallets in Dafny

Five pallets of the Basilisk node are modelled over one multi-currency ledger: liquidity mining, the XYK market maker,
the exchange that matches intentions against each other and against XYK, liquidity bootstrapping (LBP), and the NFT
marketplace.

Each pallet comes in two forms. `Mining`, `Xyk`, `Matching` and `Direct`, `Lbp` and `Market` give storage as a value
and every call as a function from storage to the next storage or an error; the modules beside them prove what every
call keeps and what follows for every sequence of calls. `MiningPallet`, `XykPallet`, `Exchange` and `Direct`,
`LbpPallet` and `MarketPallet` hold the same storage in the fields of a class and rewrite it in place, with loops and
half-written storage on errors, and are proved to do what the functions say; their `Dispatch` methods are the
transactions that roll a failed call back.

## Reading guide

- `Basics`, `Sums`, `Rounding`, `Ledgers`: results, sums over maps, floored quotients, balances.
- `NftIds`, `Mining*`: `MiningPools` is the arithmetic of one pool, `MiningInvariant` the invariant of the pallet,
  `MiningAccrual` to `MiningCalls` show that each call keeps it, `MiningForecast` is an accrual in numbers, and
  `MiningRuns`, `MiningClaims`, `MiningGrowth`, `MiningCustody` and `MiningFlows` hold the main results;
  `MiningEffects` and `MiningConditions` say call by call what is written and when it goes through; `MiningShortFarm` is
  a run that ends short, and `MiningDepartures` says who can leave on any storage.
- `Xyk*`: `XykTrades` is one trade, `XykPools` the stores, `XykRuns` the main results, `XykTerms` prices, fees and
  conditions in numbers.
- `Direct`, `DirectAmounts`, `Matching*`, `Exchange*`: `Direct` is the reserve-and-repatriate trade, `DirectAmounts`
  what it moves, `MatchingLaws` exact fills, `MatchingRounds` and `MatchingTurns` which rounds trade and that every
  intention has its turn, `ExchangeTurns` the same for queues and blocks, `MatchingSafety` conservation,
  `MatchingPanics` and `MatchingReserves` when rounds panic or strand a reservation; `ExchangePanic` is a block that
  panics, `ExchangeStranded` one that strands a reservation.
- `Lbp*`, `Market*`: laws call by call, then runs; `LbpTerms` has weights, fees and conditions in numbers, and
  `LbpSelfCollector` is a sale that nobody can remove.

## Assumptions

- Accounts derived by hashing (pool pots, pair accounts) are distinct constructors of one type, and only user accounts
  sign. Existential deposits and dust are ignored.
- The external math library is given by these definitions: trade fee `(amount / d) * n`; out given in
  `floor(rOut * x / (rIn + x))`; in given out `floor(rIn * y / (rOut - y)) + 1`, with an error when `y` is not below the
  reserve; liquidity in and out and spot price as floored proportions; linear weight as a floored weighted average with
  an error outside the sale; mining rewards by the formulas in `Mining`. Results that leave 128 bits are errors.
- Two parts of that library are parameters: the loyalty curve, of which `Mining.Lawful` asks that it is at most one and
  never falls over periods, and the weighted prices of LBP, of which nothing is asked.
- The asset registry gives each pair its own share token, not the native asset (`Xyk.Lawful`).
- Other pallets are a call `Others` of every run. `Allowed` says what it may not do: spend from pots and pool accounts,
  mint or burn share tokens and deposit NFTs, touch the marketplace's named reserve, turn back time. Collector locks of
  LBP are set by that pallet alone.
- Runs of liquidity mining add a pair to a farm only while no metadata of its removed pool is left. `AddLinksIffNoStale`
  shows that this is exactly when pools and deposits stay linked, and `StaleDepositStuck` what happens otherwise. The
  condition for withdrawing in `MiningDepartures` does not rest on it.
- The results on deposited LP shares (`MiningCustody`) ask that shares are deposited while the AMM pool exists, so that
  its share token is known.
- Histories that the source does not store are kept in storage for stating results: `audit` and `rounding` in mining,
  `log` in the exchange, `fees` in LBP, `bonds` in the marketplace. No branch reads them.
- An unchecked subtraction on 128 bits wraps around, as it does in a build without overflow checks.
- Mining errors distinguish a subtraction that fails (`Underflow`, with its site) from a number too large (`Overflow`);
  the source reports both as one error.

Where documentation and code differ, the code is followed. The comment on deposit ids says the pool id is in the four
most significant bytes; the code puts it in the four least significant. Matching is documented as keeping the matched
amounts within the main amount; the code takes intentions until the main amount is used up, the last one included. LBP
is documented with a final weight below the initial one; the code does not ask for it. The royalty range is documented
as 0 to 99 and checked as 0 to 100. Executing a validated XYK trade is documented as unable to fail, which for one
kind of buy it is not.

## Results that the code meets only in part

- A validated XYK buy need not execute: with a discount and the native asset sold, validation compares the payment and
  the discount with the same balance one by one (`ValidatedBuyCanFail`). `ValidatedBuyExecutesIff` and
  `BuySucceedsIff` give the exact condition.
- A failed preparation of a direct trade is not undone by reverting it when the second reservation was the one that
  failed (`FailedPrepareUnchangedIff`); `BlockStrands` is a block of two queued intentions that ends this way. Over a
  round, a group, a pair and a block reserved balances are as before exactly when this did not happen
  (`BlockFreesReservesIff`), and it does not happen when no matched intention is a buy (`SellersKeepReserves`).
- Finalizing a block can panic once rounding has drifted: `BlockPanics` gives three queued sells, `MatchedPanicsIff`
  and `GroupPanicsIff` the exact condition, and `ExactPairNeverPanics` a condition on prices alone that excludes it.
- A farm need not cover what a pool draws: a pool added late starts with accumulator zero (`FarmCanBeShort`).
  `TouchSucceedsIff` gives the exact condition in numbers, and the conditions for claiming and leaving are stated with
  it.
- A deposit of a removed pool is stuck when its pair is added again (`StaleDepositStuck`, and `StaleDepositExample`
  from a reachable state), for as long as the new pool counts fewer shares than it has (`StuckWhileSmaller`).
  `WithdrawIff` gives the exact condition for leaving through whatever pool is stored under the pair.
- A sale whose fees are collected by the pool's own account cannot be removed (`RemoveSucceedsIff` of LBP;
  `SelfCollectorExample` is a run from genesis).
- An offer on a burnt token cannot be withdrawn (`BurntTokenExample`, `BurntTokenStrands`, `WithdrawSucceedsIff` of
  the marketplace).

## Model

| member | source | states |
|---|---|---|
| NftIds.EncodedValue | pallets/liquidity-mining/src/lib.rs:1455-1470 | the id built byte by byte is the pool id plus the sequence number shifted by 32 bits |
| NftIds.DecodedValue | pallets/liquidity-mining/src/lib.rs:1473-1482 | decoding reads the low 32 bits, and fails exactly up to the largest invalid id |
| NftIds.IdRoundTrip | pallets/liquidity-mining/src/lib.rs:1455-1482 | an id made from a valid pool and sequence number passes the validity guard and decodes to its pool |
| NftIds.IdsNeverCollide | pallets/liquidity-mining/src/lib.rs:1455-1470 | ids are equal only for equal pools and sequence numbers |
| MiningPools.OwedNonNegative | pallets/liquidity-mining/src/lib.rs:1703-1741 | no deposit has been paid more than it earned |
| MiningPools.ClaimArithmetic | pallets/liquidity-mining/src/lib.rs:1710-1740 | nothing underflows in a claim, and the claimed total becomes the loyalty share of all earned whatever was claimed before |
| MiningPools.OwedAfterAccrual | pallets/liquidity-mining/src/lib.rs:1614-1653 | an accrual raises the sum owed by the per-share reward times the valued shares |
| MiningPools.AccrualKeeps | pallets/liquidity-mining/src/lib.rs:1614-1653 | a pool that receives a reward and spreads its floored share stays solvent with exact totals |
| MiningPools.EntryKeeps | pallets/liquidity-mining/src/lib.rs:1129-1164 | a new deposit enters every total and is owed nothing |
| MiningPools.ClaimKeeps | pallets/liquidity-mining/src/lib.rs:1703-1741 | a claim of at most what is owed is covered by the account and keeps the pool solvent |
| MiningPools.ExitFits | pallets/liquidity-mining/src/lib.rs:1344-1370 | a leaving deposit's shares, valued shares and stake are at most the totals they are taken from, and what it is owed is in the account |
| MiningPools.ExitKeeps | pallets/liquidity-mining/src/lib.rs:1344-1384 | a deposit that leaves takes its summands out of every total and the rest stays solvent |
| MiningPools.StakeRounding | pallets/liquidity-mining/src/lib.rs:837-849 | rounding the stake once over the total gains at most one unit per deposit over rounding each |
| MiningAccrual.FarmAccrual | pallets/liquidity-mining/src/lib.rs:1529-1581 | a farm's accumulator and clock never go back, and it accrues at most its maximum per period |
| MiningAccrual.FarmAccrualPaced | pallets/liquidity-mining/src/lib.rs:1529-1581 | accrual keeps the books of the farm within its pace |
| MiningAccrual.PoolAccrual | pallets/liquidity-mining/src/lib.rs:1584-1653 | a pool draws from the farm what it adds to its account, within the farm's books, and catches up to at most the farm's accumulator |
| MiningAccrual.TouchKeeps | pallets/liquidity-mining/src/lib.rs:1744-1775 | updating farm and pool keeps the invariant and moves neither deposits nor stakes |
| MiningAccrual.TouchFarmKeeps | pallets/liquidity-mining/src/lib.rs:1529-1581 | updating the farm alone keeps the invariant and changes only its clock and accumulators |
| MiningSteps.FreshNft | pallets/liquidity-mining/src/lib.rs:1166-1176 | the id of a new deposit belongs to no deposit or owner yet and decodes to its pool |
| MiningSteps.EntryKeepsInv | pallets/liquidity-mining/src/lib.rs:1129-1176 | entering keeps the invariant of every farm, pool and id |
| MiningSteps.ClaimKeepsInv | pallets/liquidity-mining/src/lib.rs:1703-1741 | paying a claim keeps the invariant of every farm, pool and id |
| MiningExits.LeftKeepsInv | pallets/liquidity-mining/src/lib.rs:1344-1433 | leaving a stored pool keeps the invariant of every farm, pool and id |
| MiningExits.OrphanKeepsInv | pallets/liquidity-mining/src/lib.rs:1392-1433 | leaving a removed pool keeps the invariant |
| MiningLifecycle.RestakeKeepsInv | pallets/liquidity-mining/src/lib.rs:837-849 | setting a multiplier, also to zero on cancel, keeps the invariant with a new rounding allowance |
| MiningLifecycle.AddLinksIffNoStale | pallets/liquidity-mining/src/lib.rs:780-786 | pools and metadata stay linked when a pool is added exactly if no metadata of an earlier pool of the pair is left |
| MiningCalls.CreateFarmKeeps | pallets/liquidity-mining/src/lib.rs:571-630 | creating a farm keeps solvency, totals, stakes, pacing and references of the whole pallet |
| MiningCalls.DestroyFarmKeeps | pallets/liquidity-mining/src/lib.rs:645-666 | destroying a farm keeps solvency, totals, stakes, pacing and references of the whole pallet |
| MiningCalls.WithdrawUndistributedKeeps | pallets/liquidity-mining/src/lib.rs:681-710 | withdrawing undistributed rewards keeps solvency, totals, stakes, pacing and references of the whole pallet |
| MiningCalls.AddLiquidityPoolKeeps | pallets/liquidity-mining/src/lib.rs:731-799 | adding a pool over no stale metadata keeps solvency, totals, stakes, pacing and references of the whole pallet |
| MiningCalls.UpdateLiquidityPoolKeeps | pallets/liquidity-mining/src/lib.rs:813-862 | changing a multiplier keeps solvency, totals, stakes, pacing and references of the whole pallet |
| MiningCalls.CancelLiquidityPoolKeeps | pallets/liquidity-mining/src/lib.rs:880-921 | canceling a pool keeps solvency, totals, stakes, pacing and references of the whole pallet |
| MiningCalls.ResumeLiquidityPoolKeeps | pallets/liquidity-mining/src/lib.rs:940-1001 | resuming a pool keeps solvency, totals, stakes, pacing and references of the whole pallet |
| MiningCalls.RemoveLiquidityPoolKeeps | pallets/liquidity-mining/src/lib.rs:1021-1079 | removing a pool keeps solvency, totals, stakes, pacing and references of the whole pallet |
| MiningCalls.RemovePoolSucceedsIff | pallets/liquidity-mining/src/lib.rs:1021-1079 | removing a pool succeeds exactly for the farm's owner on a canceled pool |
| MiningCalls.DepositSharesKeeps | pallets/liquidity-mining/src/lib.rs:1096-1191 | depositing shares keeps solvency, totals, stakes, pacing and references of the whole pallet |
| MiningCalls.ClaimRewardsKeeps | pallets/liquidity-mining/src/lib.rs:1208-1263 | claiming rewards keeps solvency, totals, stakes, pacing and references of the whole pallet |
| MiningCalls.WithdrawSharesKeeps | pallets/liquidity-mining/src/lib.rs:1289-1437 | withdrawing shares, also from a canceled or removed pool, keeps solvency, totals, stakes, pacing and references of the whole pallet |
| MiningCalls.DoClaimKeeps | pallets/liquidity-mining/src/lib.rs:1703-1741 | the payment inside a claim or a withdrawal keeps the whole invariant |
| MiningRuns.StepKeepsInv | pallets/liquidity-mining/src/lib.rs:571-1437 | every call, failed or not, keeps the invariant |
| MiningRuns.ReachableInv | pallets/liquidity-mining/src/lib.rs:571-1437 | the invariant holds in every reachable state |
| MiningRuns.PoolSolvency | pallets/liquidity-mining/src/lib.rs:1289-1437 | in every reachable state a pool's account covers the sum of what its deposits earned and did not claim, and no deposit claimed more than it earned |
| MiningRuns.TotalsExact | pallets/liquidity-mining/src/lib.rs:1133-1164 | in every reachable state the shares, valued shares, farm shares and pool count are exact sums, and accumulators are ordered |
| MiningRuns.StakeRoundingBound | pallets/liquidity-mining/src/lib.rs:837-849 | an active pool's stake is at least the sum of its deposits' stakes and exceeds it by at most the deposits at the last multiplier change |
| MiningRuns.RewardPacing | pallets/liquidity-mining/src/lib.rs:1545-1606 | accrued is paid plus pending, at most periods times the maximum, and less than the total rewards left for pools before the planned periods have passed |
| MiningRuns.ReferentialIntegrity | pallets/liquidity-mining/src/lib.rs:1043-1063 | stored pools have their farm and metadata, metadata counts exactly the live deposits of its pool, deposits and NFTs coincide and decode to known pools |
| MiningClaims.AccrualErrors | pallets/liquidity-mining/src/lib.rs:1744-1775 | accrual fails only because the farm falls short or a number overflows |
| MiningClaims.DoClaimSucceeds | pallets/liquidity-mining/src/lib.rs:1703-1741 | a claim on a stored pool succeeds exactly when payable or already made this period, and never for want of funds or by underflow |
| MiningForecast.AccrualSucceedsIff | pallets/liquidity-mining/src/lib.rs:1529-1653 | an accrual goes through exactly when the pool is idle, or what it draws, computed from farm, pool and pot beforehand, is covered by accrued rewards and pot and all numbers fit 128 bits |
| MiningForecast.TouchSucceedsIff | pallets/liquidity-mining/src/lib.rs:1744-1775 | the combined update of farm and pool succeeds exactly under that forecast, and leaves farm and pool as forecast to the last field |
| MiningForecast.TouchFarmIff | pallets/liquidity-mining/src/lib.rs:1529-1581 | updating a farm alone succeeds exactly when its numbers fit, and leaves accumulator, rewards and clock as forecast |
| MiningClaims.ClaimSucceedsIff | pallets/liquidity-mining/src/lib.rs:1208-1263 | in every reachable state the owner's claim succeeds exactly when it is the first of the period, the forecast draw is covered and the earnings at the forecast accumulator are payable |
| MiningClaims.ClaimedTotal | pallets/liquidity-mining/src/lib.rs:1710-1740 | after a claim the claimed total is the floored loyalty share, at the time since entry, of all earned since entry; the owner gets the difference |
| MiningClaims.OnlyOwnerClaims | pallets/liquidity-mining/src/lib.rs:1208-1263 | a claim succeeds only for the owner of a live deposit, from a live pool and once a period |
| MiningClaims.ClaimHistoryIndependence | pallets/liquidity-mining/src/lib.rs:1710-1740 | two histories of claims that agree on what was earned end in the same deposit |
| MiningGrowth.RunEvolves | pallets/liquidity-mining/src/lib.rs:1563-1596 | over any run accumulators only grow while a farm or pool lives, and sequences never fall, so no number is handed out twice |
| MiningEffects.DepositValued | pallets/liquidity-mining/src/lib.rs:1127-1176 | a new deposit is valued at its LP shares times the AMM's reserve of the incentivized asset; totals grow by that and stakes by its floored multiple, and nothing else changes |
| MiningEffects.MultiplierSet | pallets/liquidity-mining/src/lib.rs:813-862 | the pool first accrues at its old stake, then its stake is the floored multiple of its valued shares and the farm counts the new one for the old |
| MiningEffects.PoolCanceled | pallets/liquidity-mining/src/lib.rs:880-921 | a canceled pool has accrued at its old stake and has none from then on |
| MiningEffects.PoolResumed | pallets/liquidity-mining/src/lib.rs:940-1001 | a resumed pool starts from the farm's accumulator of that moment, brought up to date, at the current period and with the floored multiple for a stake |
| MiningEffects.ResumedDraws | pallets/liquidity-mining/src/lib.rs:975-988 | against any later farm it draws the accumulator's growth since the resume times the new stake |
| MiningEffects.ResumedForGood | pallets/liquidity-mining/src/lib.rs:975-988 | after any allowed run no draw of a resumed pool is for the time it was canceled |
| MiningEffects.FarmCreated | pallets/liquidity-mining/src/lib.rs:571-630 | a new farm has the terms given, an even share of the rewards as its maximum per period, and nothing accrued |
| MiningEffects.PoolAdded | pallets/liquidity-mining/src/lib.rs:731-799 | a new pool is empty, from the current period on and under the terms given, and its farm is brought up to date and counts it |
| MiningEffects.PoolRemoved | pallets/liquidity-mining/src/lib.rs:1021-1079 | a removed pool hands all its account holds to its farm, which counts one pool less |
| MiningEffects.ReclaimExact | pallets/liquidity-mining/src/lib.rs:681-710 | exactly the owner of a farm without pools gets all its account holds, and nobody else anything |
| MiningEffects.DestroyExact | pallets/liquidity-mining/src/lib.rs:645-666 | a farm is destroyed exactly by its owner, without pools and with an empty account, and nothing else changes |
| MiningConditions.CreateSucceedsIff | pallets/liquidity-mining/src/lib.rs:571-630 | exact condition for opening a farm |
| MiningConditions.AddPoolSucceedsIff | pallets/liquidity-mining/src/lib.rs:731-799 | exact condition for adding a pool |
| MiningConditions.MultiplierSucceedsIff | pallets/liquidity-mining/src/lib.rs:813-862 | exact condition for setting a multiplier, accrual included |
| MiningConditions.CancelSucceedsIff | pallets/liquidity-mining/src/lib.rs:880-921 | canceling succeeds exactly for the owner of a live pool that can accrue |
| MiningConditions.ResumeSucceedsIff | pallets/liquidity-mining/src/lib.rs:940-1001 | exact condition for resuming a pool |
| MiningConditions.DepositSucceedsIff | pallets/liquidity-mining/src/lib.rs:1096-1191 | a deposit succeeds exactly when the shares are there, the pool is live and can accrue, and every total has room |
| MiningGrowth.MintedIdIsNew | pallets/liquidity-mining/src/lib.rs:1455-1470 | a deposit mints an id past every earlier one, held by nobody |
| MiningCustody.RunKeepsCustody | pallets/liquidity-mining/src/lib.rs:1096-1191 | over any run the pallet holds, token by token, at least the shares of all deposits |
| MiningCustody.ExitSucceedsIff | pallets/liquidity-mining/src/lib.rs:1289-1437 | leaving a stored pool succeeds exactly when the forecast draw is covered or the pool is canceled, and the earnings are payable; otherwise the farm falls short |
| MiningCustody.WithdrawSucceedsIff | pallets/liquidity-mining/src/lib.rs:1289-1437 | in every reachable state a withdrawal from a removed pool succeeds, and from a stored one exactly under that forecast; never for missing rewards, missing shares or an underflow of totals |
| MiningCustody.StuckWhileSmaller | pallets/liquidity-mining/src/lib.rs:1344-1352 | nobody can withdraw a deposit while the pool stored under its pair counts fewer shares than the deposit has |
| MiningCustody.StaleDepositStuck | pallets/liquidity-mining/src/lib.rs:1297-1319 | right after a pair is added again over deposits of its removed pool none of them can be withdrawn; `StuckWhileSmaller` says how long |
| MiningShortFarm.ReachableStep | pallets/liquidity-mining/src/lib.rs:571-1437 | one allowed call leads from a reachable state to a reachable state |
| MiningShortFarm.FarmCanBeShort | pallets/liquidity-mining/src/lib.rs:1584-1611 | a reachable state in which a pool added late finds the farm short, and its depositor can neither claim nor withdraw |
| MiningDepartures.TouchBrings | pallets/liquidity-mining/src/lib.rs:1744-1775 | an accrual brings into the pool's account exactly the draw, and leaves totals, stake and multiplier alone |
| MiningDepartures.DoClaimIff | pallets/liquidity-mining/src/lib.rs:1703-1741 | on any storage a claim goes through exactly when accumulators are in order, nothing overflows, no more was claimed than vests and the account has the rest; it pays that rest |
| MiningDepartures.LeaveIff | pallets/liquidity-mining/src/lib.rs:1344-1384 | leaving goes through exactly when the pool and the farm count the deposit and the account has what it forfeits |
| MiningDepartures.ExitIff | pallets/liquidity-mining/src/lib.rs:1322-1384 | the pool's part of a withdrawal succeeds exactly when forecast, claim, checked subtractions and account allow it, whichever pool the deposit was made in |
| MiningDepartures.WithdrawIff | pallets/liquidity-mining/src/lib.rs:1289-1437 | a withdrawal through a stored pool succeeds exactly when that part does, the metadata counts a deposit and the pallet holds the LP shares |
| MiningDepartures.LeaveExact | pallets/liquidity-mining/src/lib.rs:1344-1384 | a leaving deposit takes exactly its shares, valued shares and floored stake out of the totals, and what it forfeits goes from the pool's account to the farm's |
| MiningDepartures.ExitExact | pallets/liquidity-mining/src/lib.rs:1322-1384 | the owner gets what vests beyond earlier claims, the farm what is forfeited, and the pool's account pays for both out of what it holds after accruing |
| MiningDepartures.StaleDepositExample | pallets/liquidity-mining/src/lib.rs:1297-1319 | a reachable state with a deposit of a removed pool, to which the pair can be added again, after which nobody can withdraw it |
| MiningFlows.StepConserves | pallets/liquidity-mining/src/lib.rs:571-1437 | every call, failed or not, conserves every asset and leaves every account alone that is neither the caller's nor the pallet's |
| MiningFlows.CreateFarmFlow | pallets/liquidity-mining/src/lib.rs:595-622 | creating a farm moves exactly the total rewards from the owner to the farm's pot |
| MiningFlows.DepositFlow | pallets/liquidity-mining/src/lib.rs:1096-1191 | a deposit moves exactly its LP shares from the depositor to the pallet, and nothing else of either |
| MiningFlows.ExitFlow | pallets/liquidity-mining/src/lib.rs:1314-1392 | the pool's part of a withdrawal pays the depositor one reward in the farm's currency and leaves the LP shares alone |
| MiningFlows.WithdrawFlow | pallets/liquidity-mining/src/lib.rs:1289-1437 | only the owner withdraws; exactly the deposited LP shares come back while the AMM exists, a reward only from a stored pool, and no other deposit is touched |
| MiningPallet.Pallet.UpdateGlobalPool | pallets/liquidity-mining/src/lib.rs:1529-1581 | the farm record after an update, written in place, or the error, is that of the function of the same name in `Mining` |
| MiningPallet.Pallet.ClaimFromGlobalPool | pallets/liquidity-mining/src/lib.rs:1584-1611 | the farm and pool records after a claim from the farm, written in place, or the error, is that of the function of the same name in `Mining` |
| MiningPallet.Pallet.UpdateLiqPool | pallets/liquidity-mining/src/lib.rs:1614-1653 | the pool record and the ledger after a pool update, written in place, or the error, is that of the function of the same name in `Mining` |
| MiningPallet.Pallet.MaybeUpdatePools | pallets/liquidity-mining/src/lib.rs:1744-1775 | farm, pool and ledger after the combined update, written in place, or the error, is that of the function of the same name in `Mining` |
| MiningPallet.Pallet.DoClaimRewards | pallets/liquidity-mining/src/lib.rs:1703-1741 | deposit and ledger after a claim, written in place, or the error, is that of the function of the same name in `Mining` |
| MiningPallet.Pallet.CreateFarm | pallets/liquidity-mining/src/lib.rs:571-630 | storage after creating a farm, written in place, or the error, is that of the function of the same name in `Mining` |
| MiningPallet.Pallet.DestroyFarm | pallets/liquidity-mining/src/lib.rs:645-666 | storage after destroying a farm, written in place, or the error, is that of the function of the same name in `Mining` |
| MiningPallet.Pallet.WithdrawUndistributed | pallets/liquidity-mining/src/lib.rs:681-710 | storage after reclaiming undistributed rewards, written in place, or the error, is that of the function of the same name in `Mining` |
| MiningPallet.Pallet.AddLiquidityPool | pallets/liquidity-mining/src/lib.rs:731-799 | storage after adding a pool, written in place, or the error, is that of the function of the same name in `Mining` |
| MiningPallet.Pallet.UpdateLiquidityPool | pallets/liquidity-mining/src/lib.rs:813-862 | storage after a multiplier change, written in place, or the error, is that of the function of the same name in `Mining` |
| MiningPallet.Pallet.CancelLiquidityPool | pallets/liquidity-mining/src/lib.rs:880-921 | storage after canceling, written in place, or the error, is that of the function of the same name in `Mining` |
| MiningPallet.Pallet.ResumeLiquidityPool | pallets/liquidity-mining/src/lib.rs:940-1001 | storage after resuming, written in place, or the error, is that of the function of the same name in `Mining` |
| MiningPallet.Pallet.RemoveLiquidityPool | pallets/liquidity-mining/src/lib.rs:1021-1079 | storage after removing a pool, written in place, or the error, is that of the function of the same name in `Mining` |
| MiningPallet.Pallet.DepositShares | pallets/liquidity-mining/src/lib.rs:1096-1191 | storage after a deposit, written in place, or the error, is that of the function of the same name in `Mining` |
| MiningPallet.Pallet.ClaimRewards | pallets/liquidity-mining/src/lib.rs:1208-1263 | storage after a claim, written in place, or the error, is that of the function of the same name in `Mining` |
| MiningPallet.Pallet.WithdrawShares | pallets/liquidity-mining/src/lib.rs:1289-1437 | storage after a withdrawal, written in place, or the error, is that of the function of the same name in `Mining` |
| MiningPallet.Pallet.Dispatch | pallets/liquidity-mining/src/lib.rs:571-1437 | a call in place ends in the specified storage, an error restores every field, and the invariant is kept |
| XykTrades.SellMath | pallets/xyk/src/lib.rs:690-703 | selling at the floored price never lowers the product of the reserves |
| XykTrades.BuyMath | pallets/xyk/src/lib.rs:840-842 | buying at the price rounded up never lowers the product of the reserves, and needs a reserve above the amount |
| XykTrades.SellEffect | pallets/xyk/src/lib.rs:752-794 | a sell moves the amount in and the net amount out, burns the discount, and touches no other account or supply |
| XykTrades.BuyEffect | pallets/xyk/src/lib.rs:901-943 | a buy moves the amount out and price plus fee in, burns the discount, and touches no other account or supply |
| XykTrades.SellValidated | pallets/xyk/src/lib.rs:647-746 | a validated sell is priced by the formula on current reserves, its fee and discount at the given rates, within balance, limit and ratio, and leaves the pool something of the asset |
| XykTrades.BuyValidated | pallets/xyk/src/lib.rs:800-895 | a validated buy is priced by the formula on current reserves, its fee and discount at the given rates, within balance, limit and ratio, and leaves the pool something of the asset |
| XykTrades.ValidSellKeepsProduct | pallets/xyk/src/lib.rs:690-780 | a validated sell does not lower the reserve product and leaves both reserves positive |
| XykTrades.ValidBuyKeepsProduct | pallets/xyk/src/lib.rs:840-929 | a validated buy does not lower the reserve product and leaves both reserves positive |
| XykTrades.ValidatedSellExecutes | pallets/xyk/src/lib.rs:748-780 | a validated sell always executes, discounted or not |
| XykTrades.ValidatedBuyExecutesIff | pallets/xyk/src/lib.rs:897-929 | a validated buy executes exactly when payment and discount do not have to come out of one balance that covers only each |
| XykPools.ValidatedBuyCanFail | pallets/xyk/src/lib.rs:862-929 | a concrete validated buy on consistent stores that does not execute |
| XykPools.CreatePoolKeeps | pallets/xyk/src/lib.rs:263-343 | creating a pool moves exactly the two amounts, issues the shares of the lower asset, and keeps all stores consistent |
| XykPools.AddLiquidityKeeps | pallets/xyk/src/lib.rs:352-437 | adding liquidity moves the floored proportion of the second asset, at most the limit, issues the shares of the lower asset, and keeps all stores consistent |
| XykPools.ShareOfReserve | pallets/xyk/src/lib.rs:483-490 | a share of a reserve is all of it for all shares and less for fewer, and the worth of the remaining shares does not fall |
| XykPools.RemoveLiquidityKeeps | pallets/xyk/src/lib.rs:447-527 | removing liquidity pays both floored proportions and burns the shares; the last shares take both reserves entirely and the pool with them; stores stay consistent |
| XykPools.SellKeeps | pallets/xyk/src/lib.rs:647-794 | a sell keeps the stores consistent, does not lower the product, and pays at least the limit |
| XykPools.BuyKeeps | pallets/xyk/src/lib.rs:800-943 | a buy keeps the stores consistent, does not lower the product, and costs at most the limit |
| XykRuns.StepKeepsInv | pallets/xyk/src/lib.rs:263-943 | every call keeps the stores consistent |
| XykRuns.ReachableInv | pallets/xyk/src/lib.rs:323-340 | from genesis on the three stores have the same keys, shares are positive and the token's issuance, reserves are positive, and a pair without pool has no shares |
| XykRuns.SellSucceedsIff | pallets/xyk/src/lib.rs:748-780 | on consistent stores a sell fails only in validation |
| XykRuns.BuySucceedsIff | pallets/xyk/src/lib.rs:897-929 | on consistent stores a validated buy executes without discount, and with one exactly when the native balance covers it on top of the payment |
| XykRuns.NoGainFromTrading | pallets/xyk/src/lib.rs:690-929 | over any trades on one pool the product never falls, and traders who together end with no less of one asset have together no more of the other |
| XykRuns.SplittingPaysNoMore | pallets/xyk/src/lib.rs:483-524 | removing shares in any number of calls pays no more of either asset than removing them at once, and leaves the same shares |
| XykRuns.RemoveSucceedsIff | pallets/xyk/src/lib.rs:466-503 | on reserves that fit a balance, removing liquidity succeeds exactly under the checks on shares and holdings |
| XykRuns.SplitCanBeOneCall | pallets/xyk/src/lib.rs:466-482 | what can be removed in pieces can be removed in one call, the share token not being one of the pool's assets |
| XykTerms.SellAccepted | pallets/xyk/src/lib.rs:647-746 | a sell is validated exactly on terms in numbers: amount, ownership, share of the reserve, fee, limit, discount; and gives these amounts |
| XykTerms.BuyAccepted | pallets/xyk/src/lib.rs:800-895 | so is a buy |
| XykTerms.SellExact | pallets/xyk/src/lib.rs:647-794 | a sell goes through exactly on those terms and moves exactly the priced amounts and the cost of a discount |
| XykTerms.BuyExact | pallets/xyk/src/lib.rs:800-943 | so does a buy, if payment and discount together do not exceed a native balance both come from |
| XykTerms.CreateSucceedsIff | pallets/xyk/src/lib.rs:263-343 | exact condition for founding a pool |
| XykTerms.AddSucceedsIff | pallets/xyk/src/lib.rs:352-437 | exact condition for adding liquidity |
| XykTerms.AddExact | pallets/xyk/src/lib.rs:391-426 | the second amount is the floored proportion of the reserves, and as many shares are minted as of the asset with the lower id |
| XykTerms.RemoveExact | pallets/xyk/src/lib.rs:483-524 | burnt shares pay their floored share of either reserve |
| XykPallet.Pallet.CreatePool | pallets/xyk/src/lib.rs:263-343 | storage after creating a pool, written in place, or the error, is that of the function of the same name in `Xyk` |
| XykPallet.Pallet.AddLiquidity | pallets/xyk/src/lib.rs:352-437 | storage after adding liquidity, written in place, or the error, is that of the function of the same name in `Xyk` |
| XykPallet.Pallet.RemoveLiquidity | pallets/xyk/src/lib.rs:447-527 | storage after removing liquidity, written in place, or the error, is that of the function of the same name in `Xyk` |
| XykPallet.Pallet.ExecuteSell | pallets/xyk/src/lib.rs:752-794 | the ledger after a sell, written in place, or the error, is that of the function of the same name in `Xyk` |
| XykPallet.Pallet.ExecuteBuy | pallets/xyk/src/lib.rs:901-943 | the ledger after a buy, written in place, or the error, is that of the function of the same name in `Xyk` |
| XykPallet.Pallet.Sell | pallets/xyk/src/lib.rs:537-556 | storage after validating and executing a sell, written in place, or the error, is that of the function of the same name in `Xyk` |
| XykPallet.Pallet.Buy | pallets/xyk/src/lib.rs:560-572 | storage after validating and executing a buy, written in place, or the error, is that of the function of the same name in `Xyk` |
| XykPallet.Pallet.Dispatch | pallets/xyk/src/lib.rs:262-572 | a call in place ends in the specified storage, an error restores every field, and the stores stay consistent |
| Direct.LegsExact | pallets/exchange/src/direct.rs:80-278 | in all four cases the listed transfers sum, account by account, exactly to what is reserved |
| Direct.PreparedHolds | pallets/exchange/src/direct.rs:47-278 | a successful preparation moves both sides' amounts from free to reserved and nothing else |
| Direct.ExecutedExact | pallets/exchange/src/direct.rs:282-308 | covered transfers are made in full: reserves fall by what is taken, free balances grow by what is brought |
| Direct.RevertedExact | pallets/exchange/src/direct.rs:312-316 | reverting covered transfers gives back exactly what was reserved for them |
| Direct.PrepareExecuteExact | pallets/exchange/src/direct.rs:47-308 | preparing and executing leaves every reserved balance as it was, changes free balances by what was given and got, and conserves supply |
| Direct.PrepareRevertExact | pallets/exchange/src/direct.rs:47-316 | preparing and reverting leaves every balance as it was |
| Direct.SettledAmounts | pallets/exchange/src/direct.rs:80-278 | what each side and the pool receive in each of the four cases |
| Direct.FailedPrepareUnchangedIff | pallets/exchange/src/direct.rs:47-316 | a failed preparation leaves all balances alone exactly when not only the second reservation failed |
| Direct.PreparedIff | pallets/exchange/src/direct.rs:47-278 | preparation succeeds exactly when both sides are sane and can afford what they have to hold |
| Direct.HalfReservedStrands | pallets/exchange/src/direct.rs:82-105 | when only the second reservation fails the first side's hold stays reserved and no transfer is listed |
| DirectAmounts.PreparedIffAffordable | pallets/exchange/src/direct.rs:47-278 | a direct trade is prepared exactly when the fees are within the amounts and both sides can pay, buyers the fee on top |
| DirectAmounts.LegsGain | pallets/exchange/src/direct.rs:80-278 | in all four cases of sellers and buyers the giver pays, the taker gets and the pool gets the difference, for every account and asset |
| DirectAmounts.SwapExact | pallets/exchange/src/direct.rs:80-310 | preparing and executing changes every free balance by exactly that and no reserved one |
| DirectAmounts.SwapOverExact | pallets/exchange/src/direct.rs:80-310 | so it does over a trade with the market maker in between |
| Direct.Trade.Prepare | pallets/exchange/src/direct.rs:47-278 | ledger and pushed transfers, or the failure, are those of `Prepared` |
| Direct.Trade.Execute | pallets/exchange/src/direct.rs:282-308 | the loop repatriates every listed transfer in order |
| Direct.Trade.Revert | pallets/exchange/src/direct.rs:312-316 | the loop unreserves every listed transfer in order |
| MatchingLaws.SortedLaws | pallets/exchange/src/lib.rs:416-417 | sorting is by falling amount, a permutation, and stable |
| MatchingLaws.GroupShortest | pallets/exchange/src/lib.rs:422-439 | a group is the shortest prefix whose amounts use up the main amount, or everything |
| MatchingLaws.OnlyLastExhausts | pallets/exchange/src/lib.rs:422-447 | before every intention of a group something of the main intention is left, so only the last can exhaust it |
| MatchingLaws.MatchedFills | pallets/exchange/src/lib.rs:601-822 | a matched intention is left alone or filled exactly, directly or by direct and market maker legs that sum to its amount, and within its limit before direct fees |
| MatchingLaws.MainFill | pallets/exchange/src/lib.rs:598-822 | what the main intention gave directly plus what is left of it is its amount; while something is left so is what it got and still wants |
| MatchingLaws.MainRest | pallets/exchange/src/lib.rs:824-827 | exactly the rest of the main intention goes to the market maker, amount in for a seller and amount out for a buyer; nothing is sent exactly when nothing is left or the trade is not validated or not executed |
| MatchingLaws.LimitLeft | pallets/exchange/src/lib.rs:664-667 | over a group the main intention's limit falls by what it got (a seller, down to zero) or, modulo 2^128, by what it gave (a buyer) |
| MatchingLaws.MainWithinLimit | pallets/exchange/src/lib.rs:664-667 | when the rest is traded with the market maker a selling main intention gets its limit in total, a buying one pays at most its limit in total unless direct trades alone paid more, when only the wrapped rest binds |
| MatchingRounds.RoundTradesIff | pallets/exchange/src/lib.rs:601-822 | a round trades exactly when limits, funds and, for a partner that wants more, the market maker allow it; then every free balance changes by exactly the two legs, and otherwise nothing is reported and, unless a reservation is stranded, no balance changes |
| MatchingRounds.GroupInTurn | pallets/exchange/src/lib.rs:598-822 | every partner of a group has its round, in order, on what the rounds before it left |
| MatchingTurns.SingleIsCall | pallets/exchange/src/lib.rs:563-592 | an intention resolved alone is the market maker's own sell or buy, reported by one event, or nothing |
| MatchingTurns.WantedShort | pallets/exchange/src/lib.rs:422-447 | a group is the shortest run of partners that asks for the main amount, or all there are |
| MatchingTurns.PairTurns | pallets/exchange/src/lib.rs:411-453 | every intention of a pair has exactly one turn: main intentions in order, passed over if the market maker would refuse them, else with their group; partners in order, in groups and behind the last group one by one to the market maker |
| MatchingTurns.OneSideInTurn | pallets/exchange/src/lib.rs:449-452 | without main intentions a pair is its other side, in falling order of amounts, each sent to the market maker |
| MatchingSafety.AmmKept | pallets/exchange/src/lib.rs:458-492 | a trade validated before a reservation and executed after it lowers no pool's product and burns exactly its discount |
| MatchingSafety.MatchedSettles | pallets/exchange/src/lib.rs:601-822 | a round, whichever way it ends, lowers no pool's product and conserves supply but for discounts |
| MatchingSafety.ProcessedFromSettles | pallets/exchange/src/lib.rs:411-453 | processing a pair lowers no pool's product, conserves every supply but for discounts, and keeps the market maker's stores consistent |
| MatchingPanics.MatchedPanicsIff | pallets/exchange/src/lib.rs:651-710 | a round panics exactly when the amounts disagree on which intention is larger and, if the main one is larger, the direct trade is within limit and affordable |
| MatchingPanics.GroupPanicsIff | pallets/exchange/src/lib.rs:601-822 | a group panics exactly when one of its rounds does, on the amounts and balances left when it comes |
| MatchingPanics.FirstMatchNeverPanics | pallets/exchange/src/lib.rs:651-662 | a first match of intentions priced at the same reserves does not panic |
| MatchingPanics.ExactPricesNeverPanic | pallets/exchange/src/lib.rs:601-822 | a group priced without remainder does not panic, and what is left of the main intention stays priced without remainder |
| MatchingPanics.ExactPairNeverPanics | pallets/exchange/src/lib.rs:411-453 | a pair whose intentions are all priced without remainder is processed without a panic |
| MatchingReserves.RoundFreesReservesIff | pallets/exchange/src/lib.rs:601-822 | a round leaves every reserved balance as it was exactly unless it prepares a direct trade and only the second reservation fails; it never lowers one |
| MatchingReserves.GroupFreesReservesIff | pallets/exchange/src/lib.rs:598-822 | a group leaves every reserved balance as it was exactly when none of its rounds strands a reservation |
| MatchingReserves.PairFreesReservesIff | pallets/exchange/src/lib.rs:411-453 | so does a pair |
| MatchingReserves.SellersKeepPairClean | pallets/exchange/src/direct.rs:82-105 | no round of a pair strands a reservation when all matched intentions are sells |
| Exchange.RegisteredConsistent | pallets/exchange/src/lib.rs:346-384 | registering appends the intention under its pair and keeps counts equal to the numbers queued |
| Exchange.SellQueuedPriced | pallets/exchange/src/lib.rs:250-289 | a queued sell is affordable and priced at the spot price of the moment |
| Exchange.BuyQueuedPriced | pallets/exchange/src/lib.rs:297-337 | a queued buy is affordable and priced at the spot price of the moment |
| ExchangeTurns.SellQueuedIff | pallets/exchange/src/lib.rs:250-292 | a sell is queued exactly when large enough, covered and priced; the caller's intention at the spot price of the moment goes behind its pair's |
| ExchangeTurns.BuyQueuedIff | pallets/exchange/src/lib.rs:297-339 | so is a buy, covered at the spot price |
| Exchange.QueuedOpposed | pallets/exchange/src/lib.rs:85-92 | main and matched intentions of a pair trade in opposite directions |
| Exchange.BlockSettles | pallets/exchange/src/lib.rs:74-97 | whatever is queued and in whatever order pairs come, a block lowers no pool's product and only discounts leave the native supply |
| Exchange.BlockFreesReservesIff | pallets/exchange/src/lib.rs:74-97 | a block leaves every reserved balance as it was exactly when none of its rounds strands a reservation |
| Exchange.SellersKeepReserves | pallets/exchange/src/lib.rs:74-97 | a block leaves every reserved balance as it was when all matched intentions are sells |
| ExchangeTurns.BlockTurns | pallets/exchange/src/lib.rs:74-97 | pair after pair, every queued intention of a block has exactly one turn |
| ExchangeStranded.QueuedByCalls | pallets/exchange/src/lib.rs:250-337 | a sell and a buy that are accepted one after the other |
| ExchangeStranded.BlockStrands | pallets/exchange/src/direct.rs:231-247 | on consistent stores the block of these two trades nothing and leaves the seller's 1000 reserved |
| ExchangePanic.QueuedBySells | pallets/exchange/src/lib.rs:250-289 | three sells that the pallet queues at the spot price of one pool |
| ExchangePanic.BlockPanics | pallets/exchange/src/lib.rs:651-662 | the block that finalizes them panics, on consistent stores and a consistent queue |
| Exchange.SortDescending | pallets/exchange/src/lib.rs:416-417 | the array is sorted in place as `Sorted` says |
| Exchange.Pallet.RegisterIntention | pallets/exchange/src/lib.rs:346-384 | the queue with the intention appended and counted, or the overflow |
| Exchange.Pallet.Sell | pallets/exchange/src/lib.rs:250-289 | the queue after a sell intention, or the error with the queue unchanged |
| Exchange.Pallet.Buy | pallets/exchange/src/lib.rs:297-337 | the queue after a buy intention, or the error with the queue unchanged |
| Exchange.Pallet.VerifyIntention | pallets/exchange/src/lib.rs:508-553 | true exactly when the market maker validates the intention |
| Exchange.Pallet.ResolveSingle | pallets/exchange/src/lib.rs:563-592 | ledger and events after one intention went to the market maker |
| Exchange.Pallet.SettleDirectly | pallets/exchange/src/lib.rs:631-693 | ledger and events after a direct trade was prepared and executed, or reverted |
| Exchange.Pallet.SettlePartly | pallets/exchange/src/lib.rs:700-762 | direct and market maker legs are made both or neither |
| Exchange.Pallet.MatchRound | pallets/exchange/src/lib.rs:601-822 | the three scenarios of a round, and its panic, are those of `Matched` |
| Exchange.Pallet.ResolveMatched | pallets/exchange/src/lib.rs:598-828 | the loop over a group and the final trade are those of `ResolvedMatched` |
| Exchange.Pallet.TakeGroup | pallets/exchange/src/lib.rs:424-439 | the loop takes exactly the group |
| Exchange.Pallet.ProcessIntentions | pallets/exchange/src/lib.rs:411-453 | sorting, skipping and resolving in place are those of `Processed` |
| Exchange.Pallet.OnFinalize | pallets/exchange/src/lib.rs:74-97 | every pair with intentions is processed, the queue is emptied, no pool's product falls and supplies are conserved but for discounts |
| LbpLaws.WeightsInRange | pallets/lbp/src/lib.rs:727-744 | at every block of a running sale both weights lie strictly between 0 and the maximum and sum to it |
| LbpLaws.WeightMovesOneWay | pallets/lbp/src/lib.rs:162-173 | the weight goes from the initial to the final one without turning back |
| LbpLaws.SellAmounts | pallets/lbp/src/lib.rs:941-1049 | in both directions of a sell trader and pool pay in total exactly the arguments and value of the price formula, within limit and ratios |
| LbpLaws.BuyAmounts | pallets/lbp/src/lib.rs:1067-1171 | in both directions of a buy trader and pool pay in total exactly the value and argument of the price formula, within limit and ratios |
| LbpTerms.SellFee | pallets/lbp/src/lib.rs:868-879 | the fee of a sell is two tenths until the repay target is collected and the pool's own from then on, on the amount sold or the amount answered, whichever is accumulated |
| LbpTerms.BuyFee | pallets/lbp/src/lib.rs:868-879 | so is the fee of a buy, on the amount bought or the amount paid |
| LbpTerms.WeightsAre | pallets/lbp/src/lib.rs:727-800 | the accumulated asset has the floored average of both weights by blocks gone and to come, the other asset the rest |
| LbpTerms.SellAccepted | pallets/lbp/src/lib.rs:941-1049 | a sell is validated exactly on terms in numbers: running sale, ownership, a third of both reserves, fee and limit |
| LbpTerms.BuyAccepted | pallets/lbp/src/lib.rs:1067-1171 | so is a buy |
| LbpTerms.TradeExecutes | pallets/lbp/src/lib.rs:832-865 | a trade that trader and pool can pay for is made, unless a lock on one of the two accounts is in the way |
| LbpTerms.CreateSucceedsIff | pallets/lbp/src/lib.rs:397-475 | exact condition for opening a sale, and the record it stores |
| LbpTerms.UpdateSucceedsIff | pallets/lbp/src/lib.rs:497-564 | a sale is changed exactly by its owner before its start to a storable record; given fields change and the others stay |
| LbpTerms.AddSucceedsIff | pallets/lbp/src/lib.rs:580-620 | exact condition for adding liquidity |
| LbpLaws.TradeMoves | pallets/lbp/src/lib.rs:832-865 | a trade moves exactly its amounts and its fee, from trader or pool to the collector, and conserves supply |
| LbpLaws.CreateKeeps | pallets/lbp/src/lib.rs:397-475 | creating a pool keeps index, locks and records consistent |
| LbpLaws.CreateMoves | pallets/lbp/src/lib.rs:463-464 | creating a pool moves exactly both amounts from the named owner to the pool |
| LbpLaws.AddMoves | pallets/lbp/src/lib.rs:580-619 | the owner's amounts, and nothing else, go to the pool |
| LbpLaws.RemoveMoves | pallets/lbp/src/lib.rs:635-650 | removal pays the owner both reserves entirely, and nobody else anything |
| LbpLaws.UpdateEffect | pallets/lbp/src/lib.rs:497-564 | an update is by the owner before the start, leaves a valid record with the same assets, and swaps the collector slot for a free one |
| LbpLaws.UpdateKeeps | pallets/lbp/src/lib.rs:497-564 | an update keeps index, locks and records consistent |
| LbpLaws.RemoveKeeps | pallets/lbp/src/lib.rs:635-662 | removal keeps index, locks and records consistent and empties both reserves |
| LbpLaws.RemoveSucceedsIff | pallets/lbp/src/lib.rs:635-662 | removal succeeds exactly for the owner while the sale is not running and no collector lock on the pool's own account holds back a reserve |
| LbpLaws.SelfCollectorStuck | pallets/lbp/src/lib.rs:644-655 | a pool that collected fees in its own account and holds the accumulated asset can be removed by nobody |
| LbpSelfCollector.SelfCollectorExample | pallets/lbp/src/lib.rs:635-662 | an allowed run from genesis (create, schedule, one trade, wait) after which the ended sale can be removed by nobody |
| LbpLaws.DrainsPool | pallets/lbp/src/lib.rs:635-662 | removal drops record, slot and lock of that pool only |
| LbpLaws.TradeStorage | pallets/lbp/src/lib.rs:832-865 | a trade adds exactly its fee to the collector's lock and changes no record |
| LbpLaws.TradeKeeps | pallets/lbp/src/lib.rs:832-865 | a trade on a running sale keeps the lock equal to the fees and everything else consistent |
| LbpRuns.ValidTrade | pallets/lbp/src/lib.rs:941-1171 | a validated trade is on a running sale of its pair, at weights in range |
| LbpRuns.StepKeepsInv | pallets/lbp/src/lib.rs:397-1186 | every call keeps index, locks and records consistent |
| LbpRuns.ReachableSales | pallets/lbp/src/lib.rs:427-657 | in every reachable state the index holds exactly the slots in use, each by one pool; a lock is the sum of that pool's fees and zero where unused; start and end are set together, ordered and bounded |
| LbpRuns.StepFrozen | pallets/lbp/src/lib.rs:511-657 | a started record is not changed by any call and is removed only by its owner after its end |
| LbpRuns.FrozenUntilEnd | pallets/lbp/src/lib.rs:803-879 | over any run up to the end of a sale the record stays, collected fees only grow, and the fee rate switches at most once and never back |
| LbpPallet.Pallet.CreatePool | pallets/lbp/src/lib.rs:397-475 | storage after creating a pool, written in place, or the error, is that of the function of the same name in `Lbp` |
| LbpPallet.Pallet.UpdatePool | pallets/lbp/src/lib.rs:497-564 | storage after changing a record field by field, written in place, or the error, is that of the function of the same name in `Lbp` |
| LbpPallet.Pallet.AddLiquidity | pallets/lbp/src/lib.rs:580-619 | the ledger after adding liquidity, written in place, or the error, is that of the function of the same name in `Lbp` |
| LbpPallet.Pallet.RemoveLiquidity | pallets/lbp/src/lib.rs:635-662 | storage after removing a pool, written in place, or the error, is that of the function of the same name in `Lbp` |
| LbpPallet.Pallet.ExecuteTrade | pallets/lbp/src/lib.rs:832-865 | ledger and lock after a trade, written in place, or the error, is that of the function of the same name in `Lbp` |
| LbpPallet.Pallet.Sell | pallets/lbp/src/lib.rs:680-693 | storage after validating and executing a sell, written in place, or the error, is that of the function of the same name in `Lbp` |
| LbpPallet.Pallet.Buy | pallets/lbp/src/lib.rs:710-723 | storage after validating and executing a buy, written in place, or the error, is that of the function of the same name in `Lbp` |
| LbpPallet.Pallet.Dispatch | pallets/lbp/src/lib.rs:396-723 | a call in place ends in the specified storage, an error restores every field, and the invariant is kept |
| MarketLaws.MakeOfferKeeps | pallets/marketplace/src/lib.rs:152-184 | an offer reserves its amount and keeps every account's escrow equal to its offers and bonds |
| MarketLaws.WithdrawOfferKeeps | pallets/marketplace/src/lib.rs:196-224 | withdrawing gives the maker exactly the amount back and keeps the escrow exact |
| MarketLaws.WithdrawSucceedsIff | pallets/marketplace/src/lib.rs:196-224 | withdrawing succeeds exactly for an existing offer on an existing token by its maker or the owner |
| MarketLaws.OfferRoundTrip | pallets/marketplace/src/lib.rs:152-224 | offering and withdrawing restores every balance and all offers |
| MarketLaws.AddRoyaltyKeeps | pallets/marketplace/src/lib.rs:271-305 | adding a royalty reserves one bond and keeps the escrow exact |
| MarketLaws.ListExact | pallets/marketplace/src/lib.rs:121-139 | exactly the owner lists a token at a price or takes it off |
| MarketLaws.OfferExact | pallets/marketplace/src/lib.rs:152-184 | exact condition for an offer, the offer stored and the amount reserved |
| MarketLaws.RoyaltyExact | pallets/marketplace/src/lib.rs:271-304 | exact condition for adding a royalty, the royalty stored and the bond reserved |
| MarketLaws.RoyaltyIs | pallets/marketplace/src/lib.rs:391-412 | the author's share is the royalty percentage of the price to the nearest unit, and nothing without a royalty or when the author sells |
| MarketLaws.RoyaltyFits | pallets/marketplace/src/lib.rs:395-399 | a percentage is within half a unit of the exact share and at most the price |
| MarketLaws.SaleExact | pallets/marketplace/src/lib.rs:369-430 | a sale debits the buyer exactly the price, split between author and owner by the royalty percentage to the nearest unit, moves the token, and clears the listing only when bought at it |
| MarketLaws.BuyKeeps | pallets/marketplace/src/lib.rs:106-110 | buying at the listed price keeps the escrow exact |
| MarketLaws.SaleSucceedsIff | pallets/marketplace/src/lib.rs:369-430 | a sale succeeds exactly when a transferable token of somebody else has a price and the buyer holds it, or what the royalty leaves of it when they are the author |
| MarketLaws.AcceptSucceedsIff | pallets/marketplace/src/lib.rs:232-261 | accepting always finds the funds: it succeeds exactly for the owner, on a live offer of somebody else, on a transferable token |
| MarketLaws.AcceptExact | pallets/marketplace/src/lib.rs:232-261 | an accepted offer is paid out of its escrow to author and owner by the royalty percentage, nothing but the offer, the owner and balances changes, and the escrow stays exact |
| MarketRuns.StepKeepsInv | pallets/marketplace/src/lib.rs:106-305 | every call keeps the escrow exact |
| MarketRuns.ReachableEscrow | pallets/marketplace/src/lib.rs:161-299 | in every reachable state each account's named reserve is the sum of its live offers plus one bond per royalty it added |
| MarketRuns.BurntTokenStrands | pallets/marketplace/src/lib.rs:196-224 | over any run during which a token stays burnt nobody can withdraw or accept an offer on it, and its escrow stays reserved |
| MarketRuns.BurntTokenExample | pallets/marketplace/src/lib.rs:196-224 | a concrete bid and burn that leaves the escrow held |
| MarketPallet.Pallet.DoBuy | pallets/marketplace/src/lib.rs:369-430 | storage after a sale, written in place, or the error, is that of the function of the same name in `Market` |
| MarketPallet.Pallet.Buy | pallets/marketplace/src/lib.rs:106-110 | storage after buying, written in place, or the error, is that of the function of the same name in `Market` |
| MarketPallet.Pallet.SetPrice | pallets/marketplace/src/lib.rs:121-140 | the listing, written in place, or the error, is that of the function of the same name in `Market` |
| MarketPallet.Pallet.MakeOffer | pallets/marketplace/src/lib.rs:152-184 | storage after an offer, written in place, or the error, is that of the function of the same name in `Market` |
| MarketPallet.Pallet.WithdrawOffer | pallets/marketplace/src/lib.rs:196-224 | storage after withdrawing, written in place, or the error, is that of the function of the same name in `Market` |
| MarketPallet.Pallet.AcceptOffer | pallets/marketplace/src/lib.rs:232-261 | storage after accepting, written in place, or the error, is that of the function of the same name in `Market` |
| MarketPallet.Pallet.AddRoyalty | pallets/marketplace/src/lib.rs:271-305 | storage after adding a royalty, written in place, or the error, is that of the function of the same name in `Market` |
| MarketPallet.Pallet.Dispatch | pallets/marketplace/src/lib.rs:105-305 | a call in place ends in the specified storage, an error restores every field, and the escrow stays exact |

## Left out

- Origin checks other than ownership (root and governance origins), events beyond the exchange's log, weights, benchmarks.
- Existential deposits, keep-alive checks and dust removal; locks other than the LBP collector lock.
- The internals of the NFT pallet: an owner map, changed by a sale and by `Others`; the failure of a transfer by class type is a set of movable classes.
- The price oracle hooks of XYK (`on_trade`, `on_create_pool`) and the errors they or the asset registry could raise.
- Direct.Legs: the sums `amount + fee` and `2 * fee` are not reduced modulo 2^128, which balances near that size could reach in the source.
- Lbp.ExecuteTrade: the unchecked sum of collected fees is not reduced modulo 2^128.
- Direct.Executed: a repatriation is not given the errors the currency could raise for accounts that do not exist.
- MatchingLaws.MatchedFills: limits are stated before the fees of direct trades, as the code checks them; the limit of the main intention is stated by `MainWithinLimit`, and not for an exhausting match, which the code does not check.
- MiningCustody.StaleDepositStuck: the state right after the pair is added again; for later states the exact condition is `MiningDepartures.WithdrawIff`.
- LBP pricing: the power functions are parameters, so no law about them is used or claimed.
- `pallets/duster`, `pallets/offchain-duster`, the runtime, the node, XCM and RPC: configuration or thin wrappers.
