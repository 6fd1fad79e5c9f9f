/** What each call writes, in numbers read off storage before the call: the records of farms, pools and deposits
    afterwards, and what the accounts hold. */
module MiningEffects {
  import opened Basics
  import opened Ledgers
  import opened NftIds
  import opened Mining
  import opened MiningInvariant
  import opened MiningForecast
  import opened MiningCalls
  import opened MiningClaims
  import opened MiningRuns
  import opened MiningGrowth
  import opened Rounding

  /** The farm's current period. */
  function PeriodOf(s: State, f: PoolId): nat
    requires f in s.farms && s.farms[f].blocksPerPeriod > 0
  {
    s.block / s.farms[f].blocksPerPeriod
  }

  /** Under the invariant clocks and accumulators are in order and ids are set. */
  lemma Current(cfg: Config, s: State, f: PoolId)
    requires Inv(cfg, s) && f in s.farms
    ensures f in s.audit && f != 0 && s.farms[f].blocksPerPeriod > 0 && s.farms[f].updatedAt <= PeriodOf(s, f)
    ensures Period(s.block, s.farms[f].blocksPerPeriod) == Ok(PeriodOf(s, f)) && PeriodOf(s, f) == Now(s, f)
  {
    hide StructureOK, PoolsOK, FarmTotalsOK, Elapsed;
    Clocked(cfg, s, f);
    assert FarmInv(s, f);
    FarmNumber(s, f);
  }

  lemma FarmNumber(s: State, f: PoolId)
    requires StructureOK(s) && f in s.farms
    ensures f != 0
  {
    hide LinksOK, NftsOK;
  }

  lemma CurrentPool(cfg: Config, s: State, key: Key)
    requires Inv(cfg, s) && key in s.pools
    ensures key.0 in s.farms && s.farms[key.0].blocksPerPeriod > 0
    ensures Ordered(s, key, PeriodOf(s, key.0)) && key.0 != 0 && s.pools[key].id !in {0, key.0}
    ensures s.pools[key].id in s.meta
  {
    hide FarmsOK, PoolsOK, PeriodOf, Inv;
    PoolFarm(cfg, s, key);
    Current(cfg, s, key.0);
    PoolBounds(cfg, s, key);
  }

  lemma PoolFarm(cfg: Config, s: State, key: Key)
    requires Inv(cfg, s) && key in s.pools
    ensures Stored(s, key)
  {
    hide FarmsOK, PoolsOK;
    IdsDistinct(s, key, key);
  }

  // Deposits.

  /** What LP shares are worth to the farm: as many times the AMM's reserve of the incentivized asset. */
  function ValueOf(s: State, key: Key, amount: nat): nat
    requires key.0 in s.farms
  {
    amount * Free(s.ledger, s.farms[key.0].incentivized, key.1)
  }

  /** The stake of valued shares in their farm: the multiple, rounded down. */
  function StakeFor(multiplier: nat, valued: nat): nat { multiplier * valued / FIXED_ONE }

  /** Storage after `amount` LP shares were deposited: the deposit is new, is valued at the AMM's reserve and starts at
      the pool's accumulator, and every total grows by exactly what the deposit adds. */
  ghost predicate DepositedIn(s: State, s': State, key: Key, who: nat, amount: nat, nft: NftId)
    requires key.0 in s.farms && s.farms[key.0].blocksPerPeriod > 0 && Ordered(s, key, PeriodOf(s, key.0))
  {
    var now, pool, valued := PeriodOf(s, key.0), s.pools[key], ValueOf(s, key, amount);
    var stake := StakeFor(pool.multiplier, valued);
    && nft !in s.deposits
    && s'.deposits == s.deposits[nft := Stake(amount, valued, AccruedPool(s, key, now).accRpvs, 0, now, now)]
    && s'.owners == s.owners[nft := who]
    && s'.pools.Keys == s.pools.Keys && s'.farms.Keys == s.farms.Keys
    && s'.pools == s.pools[key := s'.pools[key]] && s'.farms == s.farms[key.0 := s'.farms[key.0]]
    && s'.pools[key].totalShares == pool.totalShares + amount
    && s'.pools[key].totalValued == pool.totalValued + valued
    && s'.pools[key].stake == pool.stake + stake
    && s'.farms[key.0].totalSharesZ == s.farms[key.0].totalSharesZ + stake
    && s'.pools[key].accRpvs == AccruedPool(s, key, now).accRpvs
  }

  lemma EnteredIn(s: State, key: Key, who: nat, token: AssetId, amount: nat, now: nat, s': State) returns (nft: NftId)
    requires Stored(s, key) && Enter(s, key, who, token, amount, now) == Ok(s')
    ensures nft !in s.owners && s'.owners == s.owners[nft := who]
    ensures var farm, pool, valued := s.farms[key.0], s.pools[key], ValueOf(s, key, amount);
            var stake := StakeFor(pool.multiplier, valued);
            && s'.deposits == s.deposits[nft := Stake(amount, valued, pool.accRpvs, 0, now, now)]
            && s'.pools == s.pools[key := pool.(totalShares := pool.totalShares + amount,
                                                totalValued := pool.totalValued + valued, stake := pool.stake + stake)]
            && s'.farms == s.farms[key.0 := farm.(totalSharesZ := farm.totalSharesZ + stake)]
  {
    hide Free, EncodeId, Transfer;
    nft := EncodeId(s.pools[key].id, s.nftSeq + 1);
  }

  /** The valued shares of a deposit are its LP shares times the AMM's reserve of the incentivized asset at that
      moment; the pool's stake and the farm's shares grow by the floored multiple of them. */
  lemma DepositValued(cfg: Config, s: State, who: nat, f: PoolId, pair: AssetPair, amount: nat, s': State)
    returns (nft: NftId)
    requires Inv(cfg, s) && DepositShares(cfg, s, who, f, pair, amount) == Ok(s')
    ensures var key := (f, AmmOf(pair));
            && f in s.farms && s.farms[f].blocksPerPeriod > 0 && Ordered(s, key, PeriodOf(s, f))
            && DepositedIn(s, s', key, who, amount, nft)
  {
    hide Inv, Touch, Enter, Free, Period, AccruedPool, AccruedTo, ShareToken;
    var key := (f, AmmOf(pair));
    CurrentPool(cfg, s, key);
    Current(cfg, s, f);
    SameNfts(cfg, s);
    var now := PeriodOf(s, f);
    TouchSucceedsIff(s, key, now);
    var s1 := Touch(s, key, now).value;
    nft := EnteredIn(s1, key, who, ShareToken(cfg, s, pair), amount, now, s');
    TouchSparesUsers(s, key, now, s1, s.farms[f].incentivized, key.1);
    TouchKeepsTotals(s, key, now, s1);
  }

  lemma SameNfts(cfg: Config, s: State)
    requires Inv(cfg, s)
    ensures s.owners.Keys == s.deposits.Keys
  {
    hide FarmsOK, PoolsOK, NumbersOK, LinksOK;
  }

  lemma TouchKeepsTotals(s: State, key: Key, now: nat, s': State)
    requires Ordered(s, key, now) && key.0 != 0 && s.pools[key].id != 0 && Touch(s, key, now) == Ok(s')
    ensures var pool, pool' := s.pools[key], s'.pools[key];
            pool' == pool.(accRpz := pool'.accRpz, accRpvs := AccruedPool(s, key, now).accRpvs,
                           updatedAt := pool'.updatedAt)
    ensures var farm, farm' := s.farms[key.0], s'.farms[key.0];
            farm' == farm.(updatedAt := farm'.updatedAt, accRpz := farm'.accRpz, accRewards := farm'.accRewards,
                           paidRewards := farm'.paidRewards)
    ensures s'.deposits == s.deposits && s'.owners == s.owners && s'.meta == s.meta
    ensures s'.pools.Keys == s.pools.Keys && s'.farms.Keys == s.farms.Keys
    ensures s'.pools == s.pools[key := s'.pools[key]] && s'.farms == s.farms[key.0 := s'.farms[key.0]]
  {
    hide Touch, Reward, Draw, RpzAfter, RpvsAfter;
    TouchSucceedsIff(s, key, now);
  }

  // The pool's stake: multipliers, canceling, resuming.

  /** Storage after the pool at `key` got `pool`: its farm, `farm` at that moment, counts the new stake for the old. */
  predicate StakeSet(s: State, s': State, key: Key, farm: Farm, was: Pool, pool: Pool) {
    && s'.pools == s.pools[key := pool]
    && was.stake <= farm.totalSharesZ
    && s'.farms == s.farms[key.0 := farm.(totalSharesZ := farm.totalSharesZ - was.stake + pool.stake)]
    && s'.deposits == s.deposits && s'.owners == s.owners && s'.meta == s.meta
  }

  /** A new multiplier counts from now on: first the pool accrues at its old stake, then the stake becomes the floored
      multiple of all its valued shares. */
  lemma MultiplierSet(cfg: Config, s: State, who: nat, f: PoolId, pair: AssetPair, multiplier: nat, s': State)
    returns (farm: Farm, pool: Pool)
    requires Inv(cfg, s) && UpdateLiquidityPool(s, who, f, pair, multiplier) == Ok(s')
    ensures var key := (f, AmmOf(pair));
            && f in s.farms && s.farms[f].blocksPerPeriod > 0 && Ordered(s, key, PeriodOf(s, f))
            && AccruedTo(s.farms[f], s.pools[key], PotOfFarm(s, f), PeriodOf(s, f), farm, pool)
            && StakeSet(s, s', key, farm, pool,
                        pool.(stake := StakeFor(multiplier, pool.totalValued), multiplier := multiplier))
  {
    hide Inv, Touch, Free, Period, AccruedPool, AccruedTo, DepositsOf;
    var key := (f, AmmOf(pair));
    CurrentPool(cfg, s, key);
    Current(cfg, s, f);
    TouchSucceedsIff(s, key, PeriodOf(s, f));
    var s1 := Touch(s, key, PeriodOf(s, f)).value;
    farm, pool := s1.farms[f], s1.pools[key];
  }

  /** A canceled pool has accrued up to now at its old stake, and has none from now on. */
  lemma PoolCanceled(cfg: Config, s: State, who: nat, f: PoolId, pair: AssetPair, s': State)
    returns (farm: Farm, pool: Pool)
    requires Inv(cfg, s) && CancelLiquidityPool(s, who, f, pair) == Ok(s')
    ensures var key := (f, AmmOf(pair));
            && f in s.farms && s.farms[f].blocksPerPeriod > 0 && Ordered(s, key, PeriodOf(s, f))
            && AccruedTo(s.farms[f], s.pools[key], PotOfFarm(s, f), PeriodOf(s, f), farm, pool)
            && StakeSet(s, s', key, farm, pool, pool.(stake := 0, multiplier := 0, canceled := true))
  {
    hide Inv, Touch, Free, Period, AccruedPool, AccruedTo, DepositsOf;
    var key := (f, AmmOf(pair));
    CurrentPool(cfg, s, key);
    Current(cfg, s, f);
    TouchSucceedsIff(s, key, PeriodOf(s, f));
    var s1 := Touch(s, key, PeriodOf(s, f)).value;
    farm, pool := s1.farms[f], s1.pools[key];
  }

  /** A resumed pool starts from the farm's accumulator of this moment, which the farm first brought up to date, with
      the floored multiple of its valued shares for a stake. */
  lemma PoolResumed(cfg: Config, s: State, who: nat, f: PoolId, pair: AssetPair, multiplier: nat, s': State)
    requires Inv(cfg, s) && ResumeLiquidityPool(s, who, f, pair, multiplier) == Ok(s')
    ensures var key := (f, AmmOf(pair));
            && f in s.farms && key in s.pools && s.pools[key].canceled && s.farms[f].blocksPerPeriod > 0
            && s.farms[f].updatedAt <= PeriodOf(s, f)
            && var now, stake := PeriodOf(s, f), StakeFor(multiplier, s.pools[key].totalValued);
               var rpz := RpzAfter(s.farms[f], PotOfFarm(s, f), now);
               && s'.pools == s.pools[key := s.pools[key].(accRpz := rpz, updatedAt := now, stake := stake,
                                                          multiplier := multiplier, canceled := false)]
               && s'.farms.Keys == s.farms.Keys && s'.farms == s.farms[f := s'.farms[f]] && s'.farms[f].accRpz == rpz
               && s'.deposits == s.deposits && s'.ledger == s.ledger
               && s'.farms[f].totalSharesZ == s.farms[f].totalSharesZ + stake
  {
    hide Inv, TouchFarm, Free, Period, DepositsOf, RpzAfter, FarmFits;
    var key := (f, AmmOf(pair));
    PoolFarm(cfg, s, key);
    Current(cfg, s, f);
    TouchFarmIff(s, f, PeriodOf(s, f));
  }

  /** So whatever the farm has become since, the pool draws for the growth since the resume alone, at the new stake. */
  lemma ResumedDraws(cfg: Config, s: State, who: nat, f: PoolId, pair: AssetPair, multiplier: nat, s': State,
                     farm: Farm, pot: nat, now: nat)
    requires Inv(cfg, s) && ResumeLiquidityPool(s, who, f, pair, multiplier) == Ok(s')
    requires f in s'.farms && s'.farms[f].accRpz <= farm.accRpz && farm.updatedAt <= now
    ensures var key := (f, AmmOf(pair));
            && key in s'.pools && key in s.pools && s'.pools[key].accRpz <= farm.accRpz
            && Draw(farm, s'.pools[key], pot, now) ==
                 (RpzAfter(farm, pot, now) - s'.farms[f].accRpz) * (StakeFor(multiplier, s.pools[key].totalValued))
  {
    hide RpzAfter, ResumeLiquidityPool, Inv;
    PoolResumed(cfg, s, who, f, pair, multiplier, s');
  }

  /** Over whole runs: in every state after the resume, whatever was called in between, the pool's accumulator is not
      below the farm's at the resume. So no draw, however late, is for a period in which the pool was canceled. */
  lemma ResumedForGood(cfg: Config, s: State, who: nat, f: PoolId, pair: AssetPair, multiplier: nat, s': State,
                       calls: seq<Call>, t: State, pot: nat, now: nat)
    requires Lawful(cfg) && Inv(cfg, s) && ResumeLiquidityPool(s, who, f, pair, multiplier) == Ok(s')
    requires AllowedRun(cfg, s', calls) && t == Run(cfg, s', calls)
    requires var key := (f, AmmOf(pair));
             key in s.pools && key in t.pools && t.pools[key].id == s.pools[key].id
    requires f in t.farms && t.farms[f].updatedAt <= now
    ensures var key := (f, AmmOf(pair));
            && f in s'.farms && s'.farms[f].accRpz <= t.pools[key].accRpz <= t.farms[f].accRpz
            && Draw(t.farms[f], t.pools[key], pot, now) <=
                 (RpzAfter(t.farms[f], pot, now) - s'.farms[f].accRpz) * t.pools[key].stake
  {
    hide RpzAfter, ResumeLiquidityPool, Inv, Run, AllowedRun, Dispatch, Lawful;
    var key := (f, AmmOf(pair));
    PoolResumed(cfg, s, who, f, pair, multiplier, s');
    ResumeLiquidityPoolKeeps(cfg, s, who, f, pair, multiplier, s');
    PoolIdSeen(cfg, s', key);
    RunEvolves(cfg, s', calls);
    assert PoolGrew(s', t, key);
    RunKeepsInv(cfg, s', calls);
    CurrentPool(cfg, t, key);
    var rpz := RpzAfter(t.farms[f], pot, now);
    MulMonotone(rpz - t.pools[key].accRpz, rpz - s'.farms[f].accRpz, t.pools[key].stake);
  }

  lemma PoolIdSeen(cfg: Config, s: State, key: Key)
    requires Inv(cfg, s) && key in s.pools
    ensures s.pools[key].id <= s.poolSeq
  {
    hide FarmsOK, PoolsOK, LinksOK, NftsOK;
    IdsDistinct(s, key, key);
  }

  // Farms and their pools.

  /** A new farm: the terms as given, at most an even share of the rewards per period, and nothing accrued. */
  lemma FarmCreated(cfg: Config, s: State, totalRewards: nat, planned: nat, blocksPerPeriod: nat,
                    incentivized: AssetId, currency: AssetId, owner: nat, yieldPerMillion: nat, s': State)
    requires CreateFarm(cfg, s, totalRewards, planned, blocksPerPeriod, incentivized, currency, owner, yieldPerMillion)
             == Ok(s')
    ensures blocksPerPeriod > 0 && planned > 0
    ensures s'.poolSeq == s.poolSeq + 1 && s'.farms.Keys == s.farms.Keys + {s'.poolSeq}
    ensures forall f :: f in s.farms && f != s'.poolSeq ==> s'.farms[f] == s.farms[f]
    ensures var farm := s'.farms[s'.poolSeq];
            && farm.owner == owner && farm.currency == currency && farm.incentivized == incentivized
            && farm.yieldPerMillion == yieldPerMillion && farm.plannedPeriods == planned
            && farm.blocksPerPeriod == blocksPerPeriod
            && farm.updatedAt == s.block / blocksPerPeriod && farm.maxReward == totalRewards / planned
            && farm.totalSharesZ == farm.accRpz == farm.accRewards == farm.paidRewards == farm.livePools == 0
    ensures s'.pools == s.pools && s'.deposits == s.deposits && s'.meta == s.meta
  {
    hide Free, Transfer;
  }

  /** A new pool: empty, from the current period on, under the terms given; its farm was brought up to date and counts
      one pool more. */
  lemma PoolAdded(cfg: Config, s: State, who: nat, f: PoolId, pair: AssetPair, multiplier: nat, curve: Option<Curve>,
                  s': State)
    requires Inv(cfg, s) && AddLiquidityPool(s, who, f, pair, multiplier, curve) == Ok(s')
    ensures var key, id := (f, AmmOf(pair)), s.poolSeq + 1;
            && f in s.farms && key !in s.pools && s.farms[f].blocksPerPeriod > 0 && s'.poolSeq == id
            && s.farms[f].updatedAt <= PeriodOf(s, f)
            && var now := PeriodOf(s, f);
               && s'.pools == s.pools[key := Pool(id, now, 0, 0, 0, 0, curve, 0, multiplier, false)]
               && s'.meta == s.meta[id := Meta(pair, 0, f)] && s'.farms.Keys == s.farms.Keys
               && s'.farms == s.farms[f := s'.farms[f]] && s'.deposits == s.deposits && s'.ledger == s.ledger
               && s'.farms[f].livePools == s.farms[f].livePools + 1
               && s'.farms[f].accRpz == RpzAfter(s.farms[f], PotOfFarm(s, f), now)
               && s'.farms[f].totalSharesZ == s.farms[f].totalSharesZ
  {
    hide Inv, TouchFarm, Free, Period, RpzAfter, FarmFits;
    Current(cfg, s, f);
    TouchFarmIff(s, f, PeriodOf(s, f));
  }

  /** A removed pool hands what is left in its account to its farm, and the farm counts one pool less. */
  lemma PoolRemoved(cfg: Config, s: State, who: nat, f: PoolId, pair: AssetPair, s': State)
    requires Inv(cfg, s) && RemoveLiquidityPool(s, who, f, pair) == Ok(s')
    ensures var key := (f, AmmOf(pair));
            && key in s.pools && f in s.farms && s'.pools == s.pools - {key} && s'.farms.Keys == s.farms.Keys
            && s'.deposits == s.deposits && s'.owners == s.owners
            && s'.farms == s.farms[f := s.farms[f].(livePools := s'.farms[f].livePools)]
            && s'.farms[f].livePools + 1 == s.farms[f].livePools
            && var cur, id := s.farms[f].currency, s.pools[key].id;
               && Free(s'.ledger, cur, MiningPool(id)) == 0
               && Free(s'.ledger, cur, MiningPool(f)) ==
                    Free(s.ledger, cur, MiningPool(f)) + Free(s.ledger, cur, MiningPool(id))
  {
    hide Inv, Free, Transfer;
    var key := (f, AmmOf(pair));
    CurrentPool(cfg, s, key);
    var cur, id := s.farms[f].currency, s.pools[key].id;
    var all := Free(s.ledger, cur, MiningPool(id));
    TransferMoves(s.ledger, cur, MiningPool(id), MiningPool(f), all, cur, MiningPool(id));
    TransferMoves(s.ledger, cur, MiningPool(id), MiningPool(f), all, cur, MiningPool(f));
  }

  /** Undistributed rewards: the owner of a farm without pools gets all its account holds, and nobody else anything. */
  lemma ReclaimExact(s: State, who: nat, f: PoolId, a: AssetId, w: AccountId)
    ensures WithdrawUndistributed(s, who, f).Ok? <==>
              f in s.farms && who == s.farms[f].owner && s.farms[f].livePools == 0 && f != 0
    ensures WithdrawUndistributed(s, who, f).Ok? ==>
              var s', cur := WithdrawUndistributed(s, who, f).value, s.farms[f].currency;
              var all := Free(s.ledger, cur, MiningPool(f));
              && s' == s.(ledger := s'.ledger)
              && Free(s'.ledger, a, w) ==
                   if a == cur && w == MiningPool(f) then 0
                   else if a == cur && w == User(who) then Free(s.ledger, a, w) + all else Free(s.ledger, a, w)
  {
    hide Free, Transfer;
    if f in s.farms && f != 0 {
      var cur := s.farms[f].currency;
      var all := Free(s.ledger, cur, MiningPool(f));
      TransferMoves(s.ledger, cur, MiningPool(f), User(who), all, a, w);
    }
  }

  /** A farm can be destroyed by its owner, once it has no pools and its account is empty. */
  lemma DestroyExact(s: State, who: nat, f: PoolId)
    ensures DestroyFarm(s, who, f).Ok? <==>
              && f in s.farms && who == s.farms[f].owner && s.farms[f].livePools == 0 && f != 0
              && Free(s.ledger, s.farms[f].currency, MiningPool(f)) == 0
    ensures DestroyFarm(s, who, f).Ok? ==> DestroyFarm(s, who, f).value == s.(farms := s.farms - {f})
  {
    hide Free;
  }
}
