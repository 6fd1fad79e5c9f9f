/** The liquidity-mining pallet as it runs: storage maps rewritten in place, call by call, with a transactional
    dispatcher that rolls a failed call back. Each method is proved to do what the function of the same name
    in `Mining` says. */
module MiningPallet {
  import opened Basics
  import opened Ledgers
  import opened NftIds
  import opened Mining
  import opened MiningInvariant
  import opened MiningRuns

  class Pallet {
    const cfg: Config
    var farms: map<PoolId, Farm>
    var pools: map<Key, Pool>
    var deposits: map<NftId, Stake>
    var meta: map<PoolId, Meta>
    var poolSeq: nat
    var nftSeq: nat
    var owners: map<NftId, nat>
    var ledger: Ledger
    var amms: set<AccountId>
    var block: nat
    var audit: map<PoolId, Audit>
    var rounding: map<PoolId, nat>

    function Storage(): State
      reads this
    {
      State(farms, pools, deposits, meta, poolSeq, nftSeq, owners, ledger, amms, block, audit, rounding)
    }

    constructor (cfg: Config, ledger: Ledger)
      ensures this.cfg == cfg && Storage() == Initial(ledger)
    {
      this.cfg := cfg;
      farms, pools, deposits, meta := map[], map[], map[], map[];
      poolSeq, nftSeq, owners := 0, 0, map[];
      this.ledger, amms, block := ledger, {}, 0;
      audit, rounding := map[], map[];
    }

    method Restore(s: State)
      modifies this
      ensures Storage() == s
    {
      farms, pools, deposits, meta := s.farms, s.pools, s.deposits, s.meta;
      poolSeq, nftSeq, owners := s.poolSeq, s.nftSeq, s.owners;
      ledger, amms, block := s.ledger, s.amms, s.block;
      audit, rounding := s.audit, s.rounding;
    }

    // Accrual.

    method UpdateGlobalPool(f: PoolId, now: nat, rate: nat) returns (r: Result<(), Error>)
      requires f in farms && f in audit
      modifies `farms, `audit
      ensures var spec := Mining.UpdateGlobalPool(old(farms)[f], f, ledger, now, rate);
              match r
              case Ok(_) => && spec.Ok? && farms == old(farms)[f := spec.value.0]
                            && audit == old(audit)[f := AuditAfter(old(audit)[f], spec.value.1, 0)]
              case Err(e) => spec == Err(e)
    {
      var farm := farms[f];
      if farm.updatedAt == now || farm.totalSharesZ == 0 {
        assert farms == farms[f := farm] && audit == audit[f := AuditAfter(audit[f], 0, 0)];
        return Ok(());
      }
      var periods :- Sub(now, farm.updatedAt, Clock);
      var pot :- PotOf(f);
      var reward :- Mul(periods, rate);
      var left := Free(ledger, farm.currency, pot);
      if left < reward { reward := left; }
      if reward != 0 {
        var rpz :- AccumulatedRps(farm.accRpz, farm.totalSharesZ, reward);
        farm := farm.(accRpz := rpz);
        var acc :- Add(farm.accRewards, reward);
        farm := farm.(accRewards := acc);
      }
      farm := farm.(updatedAt := now);
      farms := farms[f := farm];
      audit := audit[f := AuditAfter(audit[f], reward, 0)];
      return Ok(());
    }

    method MaybeUpdateFarm(f: PoolId, now: nat) returns (r: Result<(), Error>)
      requires f in farms && f in audit
      modifies `farms, `audit
      ensures Ran(TouchFarm(old(Storage()), f, now), r, Storage())
    {
      var farm := farms[f];
      if farm.totalSharesZ != 0 && farm.updatedAt != now {
        var rate :- RewardPerPeriod(farm);
        r := UpdateGlobalPool(f, now, rate);
      } else {
        assert farms == farms[f := farm] && audit == audit[f := AuditAfter(audit[f], 0, 0)];
        r := Ok(());
      }
    }

    method ClaimFromGlobalPool(key: Key) returns (r: Result<nat, Error>)
      requires key in pools && key.0 in farms
      modifies `farms, `pools
      ensures var spec := Mining.ClaimFromGlobalPool(old(farms)[key.0], old(pools)[key]);
              match r
              case Ok(reward) => && spec.Ok? && reward == spec.value.2
                                 && farms == old(farms)[key.0 := spec.value.0]
                                 && pools == old(pools)[key := spec.value.1]
              case Err(e) => spec == Err(e)
    {
      var farm, pool := farms[key.0], pools[key];
      var delta :- Sub(farm.accRpz, pool.accRpz, RpzOrder);
      var reward :- Mul(delta, pool.stake);
      pools := pools[key := pool.(accRpz := farm.accRpz)];
      var paid :- Add(farm.paidRewards, reward);
      farm := farm.(paidRewards := paid);
      var left :- Sub(farm.accRewards, reward, FarmAccrued);
      farms := farms[key.0 := farm.(accRewards := left)];
      return Ok(reward);
    }

    method UpdateLiqPool(key: Key, rewards: nat, now: nat) returns (r: Result<(), Error>)
      requires Stored(Storage(), key)
      modifies `pools, `ledger, `audit
      ensures var spec := Mining.UpdateLiqPool(old(pools)[key], rewards, now, key.0,
                                               farms[key.0].currency, old(ledger));
              match r
              case Ok(_) => && spec.Ok? && pools == old(pools)[key := spec.value.0] && ledger == spec.value.1
                            && audit == old(audit)[key.0 := AuditAfter(old(audit)[key.0], 0, spec.value.2)]
              case Err(e) => spec == Err(e)
    {
      var pool, currency := pools[key], farms[key.0].currency;
      if pool.updatedAt == now || pool.totalValued == 0 {
        assert pools == pools[key := pool] && audit == audit[key.0 := AuditAfter(audit[key.0], 0, 0)];
        return Ok(());
      }
      var rpvs :- AccumulatedRps(pool.accRpvs, pool.totalValued, rewards);
      pool := pool.(accRpvs := rpvs, updatedAt := now);
      var farmPot :- PotOf(key.0);
      if Free(ledger, currency, farmPot) < rewards {
        return Err(InsufficientBalanceInGlobalPool);
      }
      var poolPot :- PotOf(pool.id);
      ledger := Transfer(ledger, currency, farmPot, poolPot, rewards).value;
      pools := pools[key := pool];
      audit := audit[key.0 := AuditAfter(audit[key.0], 0, rewards)];
      return Ok(());
    }

    method MaybeUpdatePools(key: Key, now: nat) returns (r: Result<(), Error>)
      requires Stored(Storage(), key)
      modifies `farms, `pools, `ledger, `audit
      ensures Ran(Touch(old(Storage()), key, now), r, Storage())
    {
      hide Mining.MaybeUpdateFarm, Mining.ClaimFromGlobalPool, Mining.UpdateLiqPool;
      var farm, pool := farms[key.0], pools[key];
      if pool.canceled || pool.totalShares == 0 || pool.updatedAt == now {
        assert farms == farms[key.0 := farm] && pools == pools[key := pool];
        assert audit == audit[key.0 := AuditAfter(audit[key.0], 0, 0)];
        return Ok(());
      }
      var _ :- MaybeUpdateFarm(key.0, now);
      var rewards :- ClaimFromGlobalPool(key);
      var _ :- UpdateLiqPool(key, rewards, now);
      ghost var u := Mining.MaybeUpdatePools(farm, key.0, pool, old(ledger), now).value;
      assert farms == old(farms)[key.0 := u.farm] && pools == old(pools)[key := u.pool];
      assert audit == old(audit)[key.0 := AuditAfter(old(audit)[key.0], u.accrued, u.moved)];
      return Ok(());
    }

    // Claims.

    method DoClaimRewards(key: Key, nft: NftId, who: nat, now: nat) returns (r: Result<(nat, nat), Error>)
      requires Stored(Storage(), key) && nft in deposits
      modifies `deposits, `ledger
      ensures var spec := DoClaim(cfg, old(Storage()), key, nft, who, now);
              match r
              case Ok((reward, unclaimable)) => spec == Ok((Storage(), reward, unclaimable))
              case Err(e) => spec == Err(e)
    {
      var d, pool := deposits[nft], pools[key];
      var periods :- Sub(now, d.enteredAt, EnteredAt);
      if d.updatedAt == now {
        return Ok((0, 0));
      }
      var loyalty :- LoyaltyMultiplier(cfg, periods, pool.curve);
      var due :- UserReward(d, pool.accRpvs, loyalty);
      var (reward, unclaimable) := due;
      var claimed :- Add(d.claimed, reward);
      d := d.(claimed := claimed);
      d := d.(updatedAt := now);
      deposits := deposits[nft := d];
      var pot :- PotOf(pool.id);
      ledger :- Pay(ledger, farms[key.0].currency, pot, User(who), reward);
      return Ok((reward, unclaimable));
    }

    // Calls, without the transaction around them.

    method AddLiquidityPool(who: nat, f: PoolId, pair: AssetPair, multiplier: nat, curve: Option<Curve>)
      returns (r: Result<(), Error>)
      modifies this
      ensures Ran(Mining.AddLiquidityPool(old(Storage()), who, f, pair, multiplier, curve), r, Storage())
    {
      hide TouchFarm, Period, Mining.InsertPool;
      var key := (f, AmmOf(pair));
      if multiplier == 0 { return Err(InvalidMultiplier); }
      if curve.Some? && curve.value.initialReward >= FIXED_ONE { return Err(InvalidInitialRewardPercentage); }
      if AmmOf(pair) !in amms { return Err(AmmPoolDoesNotExist); }
      if f !in farms || f !in audit { return Err(FarmNotFound); }
      if who != farms[f].owner { return Err(Forbidden); }
      if pair.assetIn != farms[f].incentivized && pair.assetOut != farms[f].incentivized {
        return Err(MissingIncentivizedAsset);
      }
      if key in pools { return Err(LiquidityPoolAlreadyExists); }
      var now :- Period(block, farms[f].blocksPerPeriod);
      var _ :- MaybeUpdateFarm(f, now);
      r := InsertPool(key, pair, now, curve, multiplier);
    }

    method InsertPool(key: Key, pair: AssetPair, now: nat, curve: Option<Curve>, multiplier: nat)
      returns (r: Result<(), Error>)
      requires key.0 in farms
      modifies `poolSeq, `meta, `pools, `rounding, `farms
      ensures Ran(Mining.InsertPool(old(Storage()), key, pair, now, curve, multiplier), r, Storage())
    {
      poolSeq :- NextPoolId(poolSeq);
      meta := meta[poolSeq := Meta(pair, 0, key.0)];
      pools := pools[key := NewPool(poolSeq, now, curve, multiplier)];
      rounding := rounding[poolSeq := 0];
      var farm := farms[key.0];
      if farm.livePools + 1 > MAX_U32 { return Err(Overflow); }
      farms := farms[key.0 := farm.(livePools := farm.livePools + 1)];
      return Ok(());
    }

    method Restake(key: Key, total: nat, pool: Pool)
      requires Stored(Storage(), key)
      modifies `farms, `pools, `rounding
      ensures Storage() == Restaked(old(Storage()), key, total, pool)
    {
      farms := farms[key.0 := farms[key.0].(totalSharesZ := total)];
      pools := pools[key := pool];
      rounding := rounding[pool.id := |DepositsOf(deposits, pool.id)|];
    }

    method UpdateLiquidityPool(who: nat, f: PoolId, pair: AssetPair, multiplier: nat) returns (r: Result<(), Error>)
      modifies `farms, `pools, `ledger, `audit, `rounding
      ensures Ran(Mining.UpdateLiquidityPool(old(Storage()), who, f, pair, multiplier), r, Storage())
    {
      var key := (f, AmmOf(pair));
      if multiplier == 0 { return Err(InvalidMultiplier); }
      if key !in pools { return Err(LiquidityPoolNotFound); }
      if pools[key].canceled { return Err(LiquidityMiningCanceled); }
      if !Stored(Storage(), key) { return Err(FarmNotFound); }
      if who != farms[f].owner { return Err(Forbidden); }
      var now :- Period(block, farms[f].blocksPerPeriod);
      var _ :- MaybeUpdatePools(key, now);
      var pool := pools[key];
      var stake :- GlobalShares(pool.totalValued, multiplier);
      var total :- Sub(farms[f].totalSharesZ, pool.stake, FarmStake);
      total :- Add(total, stake);
      Restake(key, total, pool.(stake := stake, multiplier := multiplier));
      return Ok(());
    }

    method CancelLiquidityPool(who: nat, f: PoolId, pair: AssetPair) returns (r: Result<(), Error>)
      modifies `farms, `pools, `ledger, `audit, `rounding
      ensures Ran(Mining.CancelLiquidityPool(old(Storage()), who, f, pair), r, Storage())
    {
      var key := (f, AmmOf(pair));
      if key !in pools { return Err(LiquidityPoolNotFound); }
      if pools[key].canceled { return Err(LiquidityMiningCanceled); }
      if !Stored(Storage(), key) { return Err(FarmNotFound); }
      if who != farms[f].owner { return Err(Forbidden); }
      var now :- Period(block, farms[f].blocksPerPeriod);
      var _ :- MaybeUpdatePools(key, now);
      var pool := pools[key];
      var total :- Sub(farms[f].totalSharesZ, pool.stake, FarmStake);
      Restake(key, total, pool.(canceled := true, stake := 0, multiplier := 0));
      return Ok(());
    }

    method ResumeLiquidityPool(who: nat, f: PoolId, pair: AssetPair, multiplier: nat) returns (r: Result<(), Error>)
      modifies `farms, `pools, `audit, `rounding
      ensures Ran(Mining.ResumeLiquidityPool(old(Storage()), who, f, pair, multiplier), r, Storage())
    {
      var key := (f, AmmOf(pair));
      if multiplier == 0 { return Err(InvalidMultiplier); }
      if key !in pools { return Err(LiquidityPoolNotFound); }
      if !pools[key].canceled { return Err(LiquidityMiningIsNotCanceled); }
      if !Stored(Storage(), key) { return Err(FarmNotFound); }
      if who != farms[f].owner { return Err(Forbidden); }
      var now :- Period(block, farms[f].blocksPerPeriod);
      var _ :- MaybeUpdateFarm(f, now);
      var pool := pools[key];
      var stake :- GlobalShares(pool.totalValued, multiplier);
      var total :- Add(farms[f].totalSharesZ, stake);
      pool := pool.(accRpz := farms[f].accRpz, updatedAt := now);
      Restake(key, total, pool.(stake := stake, canceled := false, multiplier := multiplier));
      return Ok(());
    }

    method DepositShares(who: nat, f: PoolId, pair: AssetPair, amount: nat) returns (r: Result<(), Error>)
      modifies this
      ensures Ran(Mining.DepositShares(cfg, old(Storage()), who, f, pair, amount), r, Storage())
    {
      var key, token := (f, AmmOf(pair)), ShareToken(cfg, Storage(), pair);
      if amount == 0 { return Err(InvalidDepositAmount); }
      if Free(ledger, token, User(who)) < amount { return Err(InsufficientAmmSharesBalance); }
      if key !in pools { return Err(LiquidityPoolNotFound); }
      if pools[key].canceled { return Err(LiquidityMiningCanceled); }
      if !Stored(Storage(), key) { return Err(FarmNotFound); }
      var now :- Period(block, farms[f].blocksPerPeriod);
      var _ :- MaybeUpdatePools(key, now);
      r := EnterPool(key, who, token, amount, now);
    }

    method EnterPool(key: Key, who: nat, token: AssetId, amount: nat, now: nat) returns (r: Result<(), Error>)
      requires Stored(Storage(), key)
      modifies `farms, `pools, `ledger, `deposits, `owners, `meta, `nftSeq
      ensures Ran(Enter(old(Storage()), key, who, token, amount, now), r, Storage())
    {
      var farm, pool := farms[key.0], pools[key];
      var valued :- Mul(amount, Free(ledger, farm.incentivized, key.1));
      var stake :- GlobalShares(valued, pool.multiplier);
      var totalShares :- Add(pool.totalShares, amount);
      pool := pool.(totalShares := totalShares);
      var totalValued :- Add(pool.totalValued, valued);
      pool := pool.(totalValued := totalValued);
      var poolStake :- Add(pool.stake, stake);
      pool := pool.(stake := poolStake);
      var totalSharesZ :- Add(farm.totalSharesZ, stake);
      ledger :- Pay(ledger, token, User(who), MiningPallet, amount);
      if pool.id == 0 { return Err(InvalidPoolId); }
      nftSeq :- NextNftSeq(nftSeq);
      var nft := EncodeId(pool.id, nftSeq);
      if nft in owners { return Err(NftExists); }
      owners := owners[nft := who];
      deposits := deposits[nft := Stake(amount, valued, pool.accRpvs, 0, now, now)];
      if pool.id !in meta { return Err(LiquidityPoolMetadataNotFound); }
      var m := meta[pool.id];
      if m.count + 1 > MAX_U64 { return Err(Overflow); }
      meta := meta[pool.id := m.(count := m.count + 1)];
      pools := pools[key := pool];
      farms := farms[key.0 := farm.(totalSharesZ := totalSharesZ)];
      return Ok(());
    }

    method ClaimRewards(who: nat, nft: NftId) returns (r: Result<(), Error>)
      modifies `farms, `pools, `ledger, `audit, `deposits
      ensures Ran(Mining.ClaimRewards(cfg, old(Storage()), who, nft), r, Storage())
    {
      var id :- Require(DecodePool(nft), InvalidNftId);
      if id !in meta { return Err(LiquidityPoolNotFound); }
      var m := meta[id];
      var key := (m.farm, AmmOf(m.pair));
      if nft !in deposits { return Err(NftDoesNotExist); }
      if nft !in owners { return Err(CantFindDepositOwner); }
      if owners[nft] != who { return Err(NotDepositOwner); }
      if key !in pools { return Err(LiquidityPoolNotFound); }
      if pools[key].canceled { return Err(LiquidityMiningCanceled); }
      if !Stored(Storage(), key) { return Err(FarmNotFound); }
      var now :- Period(block, farms[m.farm].blocksPerPeriod);
      if deposits[nft].updatedAt == now { return Err(DoubleClaimInThePeriod); }
      var _ :- MaybeUpdatePools(key, now);
      var _ :- DoClaimRewards(key, nft, who, now);
      return Ok(());
    }

    method LeavePool(key: Key, nft: NftId, unclaimable: nat) returns (r: Result<(), Error>)
      requires Stored(Storage(), key) && nft in deposits
      modifies `farms, `pools, `ledger
      ensures Ran(Leave(old(Storage()), key, nft, unclaimable), r, Storage())
    {
      var d, farm, pool := deposits[nft], farms[key.0], pools[key];
      var farmPot :- PotOf(key.0);
      var poolPot :- PotOf(pool.id);
      var totalShares :- Sub(pool.totalShares, d.shares, PoolShares);
      pool := pool.(totalShares := totalShares);
      var totalValued :- Sub(pool.totalValued, d.valued, PoolValued);
      pool := pool.(totalValued := totalValued);
      if !pool.canceled {
        var stake :- GlobalShares(d.valued, pool.multiplier);
        var poolStake :- Sub(pool.stake, stake, PoolStake);
        pool := pool.(stake := poolStake);
        var totalSharesZ :- Sub(farm.totalSharesZ, stake, FarmStake);
        farm := farm.(totalSharesZ := totalSharesZ);
      }
      ledger :- Pay(ledger, farm.currency, poolPot, farmPot, unclaimable);
      pools := pools[key := pool];
      farms := farms[key.0 := farm];
      return Ok(());
    }

    method ExitPool(key: Key, nft: NftId, who: nat) returns (r: Result<(), Error>)
      requires Stored(Storage(), key) && nft in deposits
      modifies `farms, `pools, `ledger, `audit, `deposits
      ensures Ran(Exit(cfg, old(Storage()), key, nft, who), r, Storage())
    {
      var now :- Period(block, farms[key.0].blocksPerPeriod);
      if !pools[key].canceled {
        var _ :- MaybeUpdatePools(key, now);
      }
      var due :- DoClaimRewards(key, nft, who, now);
      r := LeavePool(key, nft, due.1);
    }

    method WithdrawShares(who: nat, nft: NftId) returns (r: Result<(), Error>)
      modifies this
      ensures Ran(Mining.WithdrawShares(cfg, old(Storage()), who, nft), r, Storage())
    {
      hide Exit, DecodePool, Depart;
      if nft !in owners { return Err(CantFindDepositOwner); }
      if owners[nft] != who { return Err(NotDepositOwner); }
      var id :- Require(DecodePool(nft), InvalidNftId);
      if id !in meta { return Err(LiquidityPoolNotFound); }
      var m := meta[id];
      var key := (m.farm, AmmOf(m.pair));
      if nft !in deposits { return Err(NftDoesNotExist); }
      var shares, stored := deposits[nft].shares, key in pools;
      if stored {
        if !Stored(Storage(), key) { return Err(FarmNotFound); }
        var _ :- ExitPool(key, nft, who);
      }
      r := DepartPool(who, nft, id, shares, stored);
    }

    method DepartPool(who: nat, nft: NftId, id: PoolId, shares: nat, stored: bool) returns (r: Result<(), Error>)
      requires id in meta
      modifies `ledger, `deposits, `owners, `meta
      ensures Ran(Depart(cfg, old(Storage()), who, nft, id, shares, stored), r, Storage())
    {
      var m := meta[id];
      if AmmOf(m.pair) in amms {
        ledger :- Pay(ledger, cfg.shareToken(AmmOf(m.pair)), MiningPallet, User(who), shares);
      }
      deposits := deposits - {nft};
      owners := owners - {nft};
      if m.count == 0 { return Err(Underflow(NftCount)); }
      if m.count == 1 && !stored {
        meta := meta - {id};
      } else {
        meta := meta[id := m.(count := m.count - 1)];
      }
      return Ok(());
    }

    method CreateFarm(totalRewards: nat, planned: nat, blocksPerPeriod: nat, incentivized: AssetId, currency: AssetId,
                      owner: nat, yieldPerMillion: nat) returns (r: Result<(), Error>)
      modifies `farms, `audit, `ledger, `poolSeq
      ensures Ran(Mining.CreateFarm(cfg, old(Storage()), totalRewards, planned, blocksPerPeriod, incentivized, currency,
                                    owner, yieldPerMillion), r, Storage())
    {
      hide Period;
      if totalRewards < cfg.minTotalRewards { return Err(InvalidTotalRewards); }
      if planned < cfg.minPlannedPeriods { return Err(InvalidPlannedYieldingPeriods); }
      if blocksPerPeriod == 0 { return Err(InvalidBlocksPerPeriod); }
      if yieldPerMillion == 0 { return Err(InvalidYieldPerPeriod); }
      if Free(ledger, currency, User(owner)) < totalRewards { return Err(InsufficientRewardCurrencyBalance); }
      var maxReward :- Require(CheckedDiv(totalRewards, planned), Overflow);
      var now :- Period(block, blocksPerPeriod);
      poolSeq :- NextPoolId(poolSeq);
      farms := farms[poolSeq := Farm(owner, now, 0, 0, currency, 0, 0, yieldPerMillion, planned, blocksPerPeriod,
                                     incentivized, maxReward, 0)];
      audit := audit[poolSeq := Audit(now, totalRewards, 0, 0)];
      ledger := Transfer(ledger, currency, User(owner), MiningPool(poolSeq), totalRewards).value;
      return Ok(());
    }

    method DestroyFarm(who: nat, f: PoolId) returns (r: Result<(), Error>)
      modifies `farms
      ensures Ran(Mining.DestroyFarm(old(Storage()), who, f), r, Storage())
    {
      if f !in farms { return Err(FarmNotFound); }
      if who != farms[f].owner { return Err(Forbidden); }
      if farms[f].livePools != 0 { return Err(FarmIsNotEmpty); }
      var pot :- PotOf(f);
      if Free(ledger, farms[f].currency, pot) != 0 { return Err(RewardBalanceIsNotZero); }
      farms := farms - {f};
      return Ok(());
    }

    method WithdrawUndistributed(who: nat, f: PoolId) returns (r: Result<(), Error>)
      modifies `ledger
      ensures Ran(Mining.WithdrawUndistributed(old(Storage()), who, f), r, Storage())
    {
      if f !in farms { return Err(FarmNotFound); }
      if who != farms[f].owner { return Err(Forbidden); }
      if farms[f].livePools != 0 { return Err(FarmIsNotEmpty); }
      var pot :- PotOf(f);
      ledger := Transfer(ledger, farms[f].currency, pot, User(who), Free(ledger, farms[f].currency, pot)).value;
      return Ok(());
    }

    method RemoveLiquidityPool(who: nat, f: PoolId, pair: AssetPair) returns (r: Result<(), Error>)
      modifies `farms, `pools, `ledger, `meta
      ensures Ran(Mining.RemoveLiquidityPool(old(Storage()), who, f, pair), r, Storage())
    {
      var key := (f, AmmOf(pair));
      if key !in pools { return Err(LiquidityPoolNotFound); }
      var pool := pools[key];
      if !pool.canceled { return Err(LiquidityMiningIsNotCanceled); }
      if f !in farms { return Err(FarmNotFound); }
      var farm := farms[f];
      if who != farm.owner { return Err(Forbidden); }
      if farm.livePools == 0 { return Err(Underflow(PoolCount)); }
      farms := farms[f := farm.(livePools := farm.livePools - 1)];
      var farmPot :- PotOf(f);
      var poolPot :- PotOf(pool.id);
      ledger := Transfer(ledger, farm.currency, poolPot, farmPot, Free(ledger, farm.currency, poolPot)).value;
      if pool.id in meta && meta[pool.id].count == 0 {
        meta := meta - {pool.id};
      }
      pools := pools - {key};
      return Ok(());
    }

    method Perform(c: Call) returns (r: Result<(), Error>)
      modifies this
      ensures Ran(MiningRuns.Dispatch(cfg, old(Storage()), c), r, Storage())
    {
      hide Mining.CreateFarm, Mining.DestroyFarm, Mining.WithdrawUndistributed, Mining.AddLiquidityPool,
           Mining.UpdateLiquidityPool, Mining.CancelLiquidityPool, Mining.ResumeLiquidityPool,
           Mining.RemoveLiquidityPool, Mining.DepositShares, Mining.ClaimRewards, Mining.WithdrawShares;
      match c
      case Create(t, p, b, i, cur, o, y) => r := CreateFarm(t, p, b, i, cur, o, y);
      case Destroy(w, f) => r := DestroyFarm(w, f);
      case Reclaim(w, f) => r := WithdrawUndistributed(w, f);
      case RemovePool(w, f, p) => r := RemoveLiquidityPool(w, f, p);
      case AddPool(w, f, p, m, cu) => r := AddLiquidityPool(w, f, p, m, cu);
      case SetMultiplier(w, f, p, m) => r := UpdateLiquidityPool(w, f, p, m);
      case Cancel(w, f, p) => r := CancelLiquidityPool(w, f, p);
      case Resume(w, f, p, m) => r := ResumeLiquidityPool(w, f, p, m);
      case Join(w, f, p, a) => r := DepositShares(w, f, p, a);
      case Claim(w, n) => r := ClaimRewards(w, n);
      case Quit(w, n) => r := WithdrawShares(w, n);
      case Others(l, a, o, b) =>
        ledger, amms, owners, block := l, a, o, b;
        r := Ok(());
    }

    /** The transaction around a call: an error undoes every write. */
    method Dispatch(c: Call) returns (r: Result<(), Error>)
      modifies this
      ensures Storage() == Step(cfg, old(Storage()), c)
      ensures r.Ok? <==> MiningRuns.Dispatch(cfg, old(Storage()), c).Ok?
      ensures r.Err? ==> MiningRuns.Dispatch(cfg, old(Storage()), c) == Err(r.error)
      ensures Lawful(cfg) && old(Inv(cfg, Storage()) && Allowed(Storage(), c)) ==> Inv(cfg, Storage())
    {
      hide Inv, MiningRuns.Dispatch, Allowed, Lawful;
      var before := Storage();
      r := Perform(c);
      if r.Err? {
        Restore(before);
      }
      if Lawful(cfg) && Inv(cfg, before) && Allowed(before, c) {
        StepKeepsInv(cfg, before, c);
      }
    }
  }
}
