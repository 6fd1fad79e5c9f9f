/** Exactly when each call of a farm's owner and each deposit goes through, in numbers read off storage before the
    call. */
module MiningConditions {
  import opened Basics
  import opened Ledgers
  import opened NftIds
  import opened Mining
  import opened MiningInvariant
  import opened MiningForecast
  import opened MiningClaims
  import opened MiningSteps
  import MiningAccrual
  import opened MiningEffects

  /** Anybody who holds the rewards can open a farm on terms of the allowed size. */
  lemma CreateSucceedsIff(cfg: Config, s: State, totalRewards: nat, planned: nat, blocksPerPeriod: nat,
                          incentivized: AssetId, currency: AssetId, owner: nat, yieldPerMillion: nat)
    ensures CreateFarm(cfg, s, totalRewards, planned, blocksPerPeriod, incentivized, currency, owner, yieldPerMillion)
              .Ok? <==>
              && cfg.minTotalRewards <= totalRewards && cfg.minPlannedPeriods <= planned && 0 < planned
              && 0 < blocksPerPeriod && 0 < yieldPerMillion && s.poolSeq < MAX_U32
              && totalRewards <= Free(s.ledger, currency, User(owner))
  {
    hide Free, Transfer;
  }

  /** `who` owns the farm. */
  predicate Owns(s: State, who: nat, f: PoolId) { f in s.farms && s.farms[f].owner == who }

  lemma AddPoolSucceedsIff(cfg: Config, s: State, who: nat, f: PoolId, pair: AssetPair, multiplier: nat,
                           curve: Option<Curve>)
    requires Inv(cfg, s)
    ensures AddLiquidityPool(s, who, f, pair, multiplier, curve).Ok? <==>
              && Owns(s, who, f) && s.farms[f].blocksPerPeriod > 0 && s.farms[f].updatedAt <= PeriodOf(s, f)
              && multiplier > 0 && (curve.Some? ==> curve.value.initialReward < FIXED_ONE)
              && s.farms[f].incentivized in {pair.assetIn, pair.assetOut} && AmmOf(pair) in s.amms
              && (f, AmmOf(pair)) !in s.pools
              && FarmFits(s.farms[f], PotOfFarm(s, f), PeriodOf(s, f))
              && s.poolSeq < MAX_U32 && s.farms[f].livePools < MAX_U32
  {
    hide Inv, TouchFarm, Free, Period, FarmFits, RpzAfter, Reward;
    if f in s.farms {
      Current(cfg, s, f);
      TouchFarmIff(s, f, PeriodOf(s, f));
    }
  }

  /** A live pool of the owner that can accrue now. */
  predicate LiveAndAccrues(s: State, who: nat, key: Key) {
    && Owns(s, who, key.0) && s.farms[key.0].blocksPerPeriod > 0
    && key in s.pools && !s.pools[key].canceled
    && Ordered(s, key, PeriodOf(s, key.0)) && Accrues(s, key, PeriodOf(s, key.0))
  }

  lemma MultiplierSucceedsIff(cfg: Config, s: State, who: nat, f: PoolId, pair: AssetPair, multiplier: nat)
    requires Inv(cfg, s)
    ensures var key := (f, AmmOf(pair));
            UpdateLiquidityPool(s, who, f, pair, multiplier).Ok? <==>
              && multiplier > 0 && LiveAndAccrues(s, who, key)
              && StakeFor(multiplier, s.pools[key].totalValued) <= MAX_U128
              && s.farms[f].totalSharesZ - s.pools[key].stake + StakeFor(multiplier, s.pools[key].totalValued)
                 <= MAX_U128
  {
    hide Inv, Touch, Free, Period, AccruedPool, AccruedTo, DepositsOf, Accrues;
    var key := (f, AmmOf(pair));
    if key in s.pools {
      CurrentPool(cfg, s, key);
      Current(cfg, s, f);
      StakeCounted(cfg, s, key);
      TouchSucceedsIff(s, key, PeriodOf(s, f));
      if Touch(s, key, PeriodOf(s, f)).Ok? {
        TouchKeepsTotals(s, key, PeriodOf(s, f), Touch(s, key, PeriodOf(s, f)).value);
      }
    }
  }

  lemma StakeCounted(cfg: Config, s: State, key: Key)
    requires Inv(cfg, s) && key in s.pools
    ensures key.0 in s.farms && s.pools[key].stake <= s.farms[key.0].totalSharesZ
  {
    hide Inv;
    PoolFarm(cfg, s, key);
    StakeWithinTotal(cfg, s, key);
  }

  /** Canceling asks for nothing but a live pool that can accrue. */
  lemma CancelSucceedsIff(cfg: Config, s: State, who: nat, f: PoolId, pair: AssetPair)
    requires Inv(cfg, s)
    ensures CancelLiquidityPool(s, who, f, pair).Ok? <==> LiveAndAccrues(s, who, (f, AmmOf(pair)))
  {
    hide Inv, Touch, Free, Period, AccruedPool, AccruedTo, DepositsOf, Accrues;
    var key := (f, AmmOf(pair));
    if key in s.pools {
      CurrentPool(cfg, s, key);
      Current(cfg, s, f);
      StakeCounted(cfg, s, key);
      TouchSucceedsIff(s, key, PeriodOf(s, f));
      if Touch(s, key, PeriodOf(s, f)).Ok? {
        TouchKeepsTotals(s, key, PeriodOf(s, f), Touch(s, key, PeriodOf(s, f)).value);
      }
    }
  }

  lemma ResumeSucceedsIff(cfg: Config, s: State, who: nat, f: PoolId, pair: AssetPair, multiplier: nat)
    requires Inv(cfg, s)
    ensures var key := (f, AmmOf(pair));
            ResumeLiquidityPool(s, who, f, pair, multiplier).Ok? <==>
              && multiplier > 0 && Owns(s, who, f) && key in s.pools && s.pools[key].canceled
              && s.farms[f].blocksPerPeriod > 0 && s.farms[f].updatedAt <= PeriodOf(s, f)
              && FarmFits(s.farms[f], PotOfFarm(s, f), PeriodOf(s, f))
              && StakeFor(multiplier, s.pools[key].totalValued) <= MAX_U128
              && s.farms[f].totalSharesZ + StakeFor(multiplier, s.pools[key].totalValued) <= MAX_U128
  {
    hide Inv, TouchFarm, Free, Period, FarmFits, RpzAfter, Reward, DepositsOf;
    var key := (f, AmmOf(pair));
    if key in s.pools {
      PoolFarm(cfg, s, key);
      Current(cfg, s, f);
      TouchFarmIff(s, f, PeriodOf(s, f));
    }
  }

  /** A deposit goes through exactly when the shares are there, the pool is live and can accrue, and every total has
      room for what the deposit adds. */
  predicate RoomFor(s: State, key: Key, amount: nat)
    requires key in s.pools && key.0 in s.farms && s.pools[key].id in s.meta
  {
    var farm, pool, valued := s.farms[key.0], s.pools[key], ValueOf(s, key, amount);
    var stake := StakeFor(pool.multiplier, valued);
    && valued <= MAX_U128 && stake <= MAX_U128
    && pool.totalShares + amount <= MAX_U128 && pool.totalValued + valued <= MAX_U128
    && pool.stake + stake <= MAX_U128 && farm.totalSharesZ + stake <= MAX_U128
    && s.nftSeq < MAX_NFT_SEQUENCE && s.meta[pool.id].count < MAX_U64
  }

  lemma EnterIff(s: State, key: Key, who: nat, token: AssetId, amount: nat, now: nat)
    requires StructureOK(s) && Stored(s, key) && s.pools[key].id in s.meta && s.pools[key].id != 0
    ensures Enter(s, key, who, token, amount, now).Ok? <==>
              RoomFor(s, key, amount) && amount <= Free(s.ledger, token, User(who))
  {
    hide StructureOK, Free, EncodeId, Transfer;
    if s.nftSeq < MAX_NFT_SEQUENCE {
      FreshNft(s, key, EncodeId(s.pools[key].id, s.nftSeq + 1));
    }
  }

  lemma DepositSucceedsIff(cfg: Config, s: State, who: nat, f: PoolId, pair: AssetPair, amount: nat)
    requires Inv(cfg, s)
    ensures var key, token := (f, AmmOf(pair)), if AmmOf(pair) in s.amms then cfg.shareToken(AmmOf(pair)) else 0;
            DepositShares(cfg, s, who, f, pair, amount).Ok? <==>
              && 0 < amount <= Free(s.ledger, token, User(who))
              && key in s.pools && f in s.farms && LiveAndAccrues(s, s.farms[f].owner, key)
              && s.pools[key].id in s.meta && RoomFor(s, key, amount)
  {
    hide Inv, Touch, Enter, Free, Period, AccruedPool, AccruedTo, Accrues, RoomFor;
    var key, token := (f, AmmOf(pair)), ShareToken(cfg, s, pair);
    if key in s.pools {
      CurrentPool(cfg, s, key);
      Current(cfg, s, f);
      TouchSucceedsIff(s, key, PeriodOf(s, f));
      var r := Touch(s, key, PeriodOf(s, f));
      if r.Ok? {
        var s1 := r.value;
        TouchKeepsTotals(s, key, PeriodOf(s, f), s1);
        TouchedStructure(cfg, s, key, s1);
        EnterIff(s1, key, who, token, amount, PeriodOf(s, f));
        TouchSparesUsers(s, key, PeriodOf(s, f), s1, token, User(who));
        TouchSparesUsers(s, key, PeriodOf(s, f), s1, s.farms[f].incentivized, key.1);
        SameRoom(s, s1, key, amount);
      }
    }
  }

  lemma TouchedStructure(cfg: Config, s: State, key: Key, s': State)
    requires Inv(cfg, s) && key in s.pools && key.0 in s.farms && s.farms[key.0].blocksPerPeriod > 0
    requires Stored(s, key) && Touch(s, key, PeriodOf(s, key.0)) == Ok(s')
    ensures StructureOK(s')
  {
    hide FarmsOK, PoolsOK, StructureOK, Touch, PeriodOf;
    Current(cfg, s, key.0);
    MiningAccrual.TouchKeeps(cfg, s, key, PeriodOf(s, key.0), s');
  }

  lemma SameRoom(s: State, s': State, key: Key, amount: nat)
    requires key in s.pools && key.0 in s.farms && s.pools[key].id in s.meta
    requires key in s'.pools && key.0 in s'.farms && s'.meta == s.meta && s'.nftSeq == s.nftSeq
    requires var pool, pool' := s.pools[key], s'.pools[key];
             pool' == pool.(accRpz := pool'.accRpz, accRpvs := pool'.accRpvs, updatedAt := pool'.updatedAt)
    requires s'.farms[key.0].totalSharesZ == s.farms[key.0].totalSharesZ
    requires s'.farms[key.0].incentivized == s.farms[key.0].incentivized
    requires Free(s'.ledger, s.farms[key.0].incentivized, key.1) == Free(s.ledger, s.farms[key.0].incentivized, key.1)
    ensures RoomFor(s', key, amount) <==> RoomFor(s, key, amount)
  {
    hide Free;
  }
}
