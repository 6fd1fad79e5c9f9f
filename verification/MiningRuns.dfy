/** Runs of the liquidity-mining pallet: any sequence of calls by anybody, interleaved with other pallets,
    and what holds after each of them. */
module MiningRuns {
  import opened Basics
  import opened Ledgers
  import opened NftIds
  import opened Mining
  import opened MiningPools
  import opened MiningInvariant
  import opened MiningLifecycle
  import opened MiningCalls

  datatype Call =
    | Create(totalRewards: nat, planned: nat, blocksPerPeriod: nat, incentivized: AssetId, currency: AssetId,
             owner: nat, yieldPerMillion: nat)
    | Destroy(who: nat, farm: PoolId)
    | Reclaim(who: nat, farm: PoolId)
    | AddPool(who: nat, farm: PoolId, pair: AssetPair, multiplier: nat, curve: Option<Curve>)
    | SetMultiplier(who: nat, farm: PoolId, pair: AssetPair, multiplier: nat)
    | Cancel(who: nat, farm: PoolId, pair: AssetPair)
    | Resume(who: nat, farm: PoolId, pair: AssetPair, multiplier: nat)
    | RemovePool(who: nat, farm: PoolId, pair: AssetPair)
    | Join(who: nat, farm: PoolId, pair: AssetPair, amount: nat)
    | Claim(who: nat, nft: NftId)
    | Quit(who: nat, nft: NftId)
    // other pallets, NFT trades, AMM pools and time
    | Others(ledger: Ledger, amms: set<AccountId>, owners: map<NftId, nat>, block: nat)

  function Dispatch(cfg: Config, s: State, c: Call): Result<State, Error> {
    match c
    case Create(t, p, b, i, cur, o, y) => CreateFarm(cfg, s, t, p, b, i, cur, o, y)
    case Destroy(w, f) => DestroyFarm(s, w, f)
    case Reclaim(w, f) => WithdrawUndistributed(s, w, f)
    case AddPool(w, f, p, m, c) => AddLiquidityPool(s, w, f, p, m, c)
    case SetMultiplier(w, f, p, m) => UpdateLiquidityPool(s, w, f, p, m)
    case Cancel(w, f, p) => CancelLiquidityPool(s, w, f, p)
    case Resume(w, f, p, m) => ResumeLiquidityPool(s, w, f, p, m)
    case RemovePool(w, f, p) => RemoveLiquidityPool(s, w, f, p)
    case Join(w, f, p, a) => DepositShares(cfg, s, w, f, p, a)
    case Claim(w, n) => ClaimRewards(cfg, s, w, n)
    case Quit(w, n) => WithdrawShares(cfg, s, w, n)
    case Others(l, a, o, b) => Ok(s.(ledger := l, amms := a, owners := o, block := b))
  }

  /** A failed call changes nothing. */
  function Step(cfg: Config, s: State, c: Call): State {
    match Dispatch(cfg, s, c)
    case Ok(s') => s'
    case Err(_) => s
  }

  /** Other pallets cannot spend from the pallet's accounts, mint or burn its NFTs, or turn back time; and a
      pair is not added again while metadata of its removed pool is left. */
  ghost predicate Allowed(s: State, c: Call) {
    match c
    case Others(l, _, owners, block) =>
      && s.block <= block && owners.Keys == s.owners.Keys
      && (forall a, p :: Free(s.ledger, a, MiningPool(p)) <= Free(l, a, MiningPool(p)))
      && (forall a :: Free(s.ledger, a, MiningPallet) <= Free(l, a, MiningPallet))
    case AddPool(_, f, pair, _, _) => NoStale(s.meta, (f, AmmOf(pair)))
    case _ => true
  }

  function Run(cfg: Config, s: State, calls: seq<Call>): State
    decreases |calls|
  {
    if calls == [] then s else Run(cfg, Step(cfg, s, calls[0]), calls[1..])
  }

  ghost predicate AllowedRun(cfg: Config, s: State, calls: seq<Call>)
    decreases |calls|
  {
    calls != [] ==> Allowed(s, calls[0]) && AllowedRun(cfg, Step(cfg, s, calls[0]), calls[1..])
  }

  lemma StepKeepsInv(cfg: Config, s: State, c: Call)
    requires Lawful(cfg) && Inv(cfg, s) && Allowed(s, c)
    ensures Inv(cfg, Step(cfg, s, c))
  {
    hide Inv, CreateFarm, DestroyFarm, WithdrawUndistributed, AddLiquidityPool, UpdateLiquidityPool,
         CancelLiquidityPool, ResumeLiquidityPool, RemoveLiquidityPool, DepositShares, ClaimRewards, WithdrawShares,
         Lawful;
    var r := Dispatch(cfg, s, c);
    if r.Ok? {
      var s' := r.value;
      match c
      case Create(t, p, b, i, cur, o, y) => CreateFarmKeeps(cfg, s, t, p, b, i, cur, o, y, s');
      case Destroy(w, f) => DestroyFarmKeeps(cfg, s, w, f, s');
      case Reclaim(w, f) => WithdrawUndistributedKeeps(cfg, s, w, f, s');
      case AddPool(w, f, p, m, cu) => AddLiquidityPoolKeeps(cfg, s, w, f, p, m, cu, s');
      case SetMultiplier(w, f, p, m) => UpdateLiquidityPoolKeeps(cfg, s, w, f, p, m, s');
      case Cancel(w, f, p) => CancelLiquidityPoolKeeps(cfg, s, w, f, p, s');
      case Resume(w, f, p, m) => ResumeLiquidityPoolKeeps(cfg, s, w, f, p, m, s');
      case RemovePool(w, f, p) => RemoveLiquidityPoolKeeps(cfg, s, w, f, p, s');
      case Join(w, f, p, a) => DepositSharesKeeps(cfg, s, w, f, p, a, s');
      case Claim(w, n) => ClaimRewardsKeeps(cfg, s, w, n, s');
      case Quit(w, n) => WithdrawSharesKeeps(cfg, s, w, n, s');
      case Others(_, _, _, _) => EnvironmentKeepsInv(cfg, s, s');
    }
  }

  lemma {:induction false} RunKeepsInv(cfg: Config, s: State, calls: seq<Call>)
    requires Lawful(cfg) && Inv(cfg, s) && AllowedRun(cfg, s, calls)
    ensures Inv(cfg, Run(cfg, s, calls))
    decreases |calls|
  {
    hide Inv, Step, Lawful, Allowed;
    if calls != [] {
      StepKeepsInv(cfg, s, calls[0]);
      RunKeepsInv(cfg, Step(cfg, s, calls[0]), calls[1..]);
    }
  }

  /** A state the pallet can be in. */
  ghost predicate Reachable(cfg: Config, s: State) {
    exists ledger, calls :: Reaches(cfg, ledger, calls, s)
  }

  ghost predicate Reaches(cfg: Config, ledger: Ledger, calls: seq<Call>, s: State) {
    AllowedRun(cfg, Initial(ledger), calls) && Run(cfg, Initial(ledger), calls) == s
  }

  lemma ReachableInv(cfg: Config, s: State)
    requires Lawful(cfg) && Reachable(cfg, s)
    ensures Inv(cfg, s)
  {
    hide Inv, Lawful, Run, AllowedRun, Initial;
    var ledger, calls :| Reaches(cfg, ledger, calls, s);
    InitialInv(cfg, ledger);
    RunKeepsInv(cfg, Initial(ledger), calls);
  }

  // Main results.

  /** Solvency: in every reachable state each stored pool's account covers everything its deposits have earned
      and not yet claimed. */
  lemma PoolSolvency(cfg: Config, s: State, key: Key)
    requires Lawful(cfg) && Reachable(cfg, s) && key in s.pools
    ensures key.0 in s.farms
    ensures var pool, deps := s.pools[key], DepositsOf(s.deposits, s.pools[key].id);
            && Total(deps, (d: Stake) => (pool.accRpvs - d.accRpvs) * d.valued - d.claimed)
               <= Free(s.ledger, s.farms[key.0].currency, MiningPool(pool.id))
            && (forall n :: n in deps ==> deps[n].claimed <= (pool.accRpvs - deps[n].accRpvs) * deps[n].valued)
  {
    hide FarmsOK, StructureOK, TotalsOK, StakeOK, Vested, Reachable, Elapsed;
    ReachableInv(cfg, s);
    assert PoolInv(cfg, s, key);
    var pool, deps := s.pools[key], DepositsOf(s.deposits, s.pools[key].id);
    SameTotal(deps, OwedFn(pool.accRpvs), (d: Stake) => (pool.accRpvs - d.accRpvs) * d.valued - d.claimed);
    OwedTotals(cfg, pool.curve, pool.accRpvs, deps, Now(s, key.0));
  }

  lemma SameTotal(deps: map<NftId, Stake>, f: Stake -> int, g: Stake -> int)
    requires forall d :: f(d) == g(d)
    ensures Total(deps, f) == Total(deps, g)
  {
    assert Weigh(deps, f) == Weigh(deps, g);
  }

  /** Totals: shares and valued shares of a pool, and the farm's shares and pool count, are exact sums. */
  lemma TotalsExact(cfg: Config, s: State, key: Key)
    requires Lawful(cfg) && Reachable(cfg, s) && key in s.pools
    ensures key.0 in s.farms
    ensures var deps := DepositsOf(s.deposits, s.pools[key].id);
            && s.pools[key].totalShares == Total(deps, SharesFn())
            && s.pools[key].totalValued == Total(deps, ValuedFn())
    ensures FarmTotalsOK(s.farms[key.0], StakesIn(s.pools, key.0))
    ensures s.pools[key].accRpz <= s.farms[key.0].accRpz
    ensures forall n :: n in s.deposits && DecodePool(n) == Some(s.pools[key].id) ==>
              s.deposits[n].accRpvs <= s.pools[key].accRpvs
  {
    hide StructureOK, StakeOK, Solvent, Vested, Reachable, Elapsed, Total, DecodePool, PacingOK;
    ReachableInv(cfg, s);
    assert PoolInv(cfg, s, key) && FarmInv(s, key.0);
    var v := ViewOf(s, key);
    forall n | n in s.deposits && DecodePool(n) == Some(s.pools[key].id)
      ensures s.deposits[n].accRpvs <= s.pools[key].accRpvs
    {
      assert v.deps[n] == s.deposits[n];
      assert DepositOK(cfg, v.pool.curve, v.pool.accRpvs, v.deps[n], Now(s, key.0));
    }
  }

  /** Stake rounding: an active pool's stake is at least the sum of its deposits' floored stakes, and exceeds it
      by at most the number of deposits present when the multiplier was last set. */
  lemma StakeRoundingBound(cfg: Config, s: State, key: Key)
    requires Lawful(cfg) && Reachable(cfg, s) && key in s.pools && !s.pools[key].canceled
    ensures s.pools[key].id in s.rounding
    ensures var pool := s.pools[key];
            var exact := Total(DepositsOf(s.deposits, pool.id), StakeFn(pool.multiplier));
            exact <= pool.stake <= exact + s.rounding[pool.id]
  {
    hide FarmsOK, StructureOK, TotalsOK, Solvent, DepositsOK, Reachable, Elapsed, Total;
    ReachableInv(cfg, s);
    assert PoolInv(cfg, s, key);
  }

  /** Pacing: what a farm accrued is what it paid plus what it still owes, never more than its rate times the
      periods since creation; and while fewer periods than planned have passed, less than the total rewards
      have been moved to pools. */
  lemma RewardPacing(cfg: Config, s: State, f: PoolId)
    requires Lawful(cfg) && Reachable(cfg, s) && f in s.farms
    ensures f in s.audit
    ensures var farm, a := s.farms[f], s.audit[f];
            && a.created <= farm.updatedAt
            && farm.accRewards + farm.paidRewards == a.accrued <= (farm.updatedAt - a.created) * farm.maxReward
            && a.moved <= farm.paidRewards
            && (farm.updatedAt - a.created < farm.plannedPeriods && a.totalRewards > 0 ==> a.moved < a.totalRewards)
  {
    hide PoolsOK, StructureOK, Reachable, Elapsed, FarmTotalsOK;
    ReachableInv(cfg, s);
    assert FarmInv(s, f);
    var farm, a := s.farms[f], s.audit[f];
    var elapsed := farm.updatedAt - a.created;
    BudgetIsProduct(elapsed, farm.maxReward);
    if elapsed < farm.plannedPeriods {
      BudgetSplits(elapsed, farm.plannedPeriods - elapsed, farm.maxReward);
      BudgetPositive(farm.plannedPeriods - elapsed, farm.maxReward);
    }
  }

  lemma BudgetPositive(periods: nat, rate: nat)
    requires periods > 0
    ensures rate <= Budget(periods, rate)
  {
  }

  /** Referential integrity: stored pools have a farm and metadata naming them; metadata counts exactly the live
      deposits whose NFT id decodes to its pool; NFTs and deposits coincide. */
  lemma ReferentialIntegrity(cfg: Config, s: State)
    requires Lawful(cfg) && Reachable(cfg, s)
    ensures forall k :: k in s.pools ==>
              k.0 in s.farms && s.pools[k].id in s.meta && KeyOf(s.meta[s.pools[k].id]) == k
    ensures forall p :: p in s.meta ==> s.meta[p].count == |NftsOf(s.deposits.Keys, p)|
    ensures s.owners.Keys == s.deposits.Keys
    ensures forall n :: n in s.deposits ==> DecodePool(n).Some? && DecodePool(n).value in s.meta
  {
    hide FarmsOK, PoolsOK, Reachable, DecodePool;
    ReachableInv(cfg, s);
    forall k | k in s.pools
      ensures k.0 in s.farms && s.pools[k].id in s.meta && KeyOf(s.meta[s.pools[k].id]) == k
    {
      assert Ids(s.pools)[k] == s.pools[k].id;
    }
    forall p | p in s.meta
      ensures s.meta[p].count == |NftsOf(s.deposits.Keys, p)|
    {
      assert CountOK(s.deposits.Keys, s.meta, p, s.pools.Keys);
    }
    forall n | n in s.deposits
      ensures DecodePool(n).Some? && DecodePool(n).value in s.meta
    {
      assert NftOK(n, s.meta.Keys, s.nftSeq);
    }
  }
}
