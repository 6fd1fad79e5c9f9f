/** Accrual, the step shared by all calls: a farm accrues rewards at its pace, a pool draws its share, and
    every invariant survives. */
module MiningAccrual {
  import opened Basics
  import opened Rounding
  import opened Ledgers
  import opened Mining
  import opened MiningPools
  import opened MiningInvariant

  lemma FarmAccrual(farm: Farm, farmId: PoolId, ledger: Ledger, now: nat, farm': Farm, reward: nat)
    requires MaybeUpdateFarm(farm, farmId, ledger, now) == Ok((farm', reward))
    requires farm.updatedAt <= now
    ensures farm' == farm.(updatedAt := farm'.updatedAt, accRpz := farm'.accRpz, accRewards := farm.accRewards + reward)
    ensures farm.accRpz <= farm'.accRpz
    ensures farm.updatedAt <= farm'.updatedAt <= now
    ensures reward <= Budget(farm'.updatedAt - farm.updatedAt, farm.maxReward)
  {
    if farm.totalSharesZ != 0 && farm.updatedAt != now {
      var rate := RewardPerPeriod(farm).value;
      MulMonotone(rate, farm.maxReward, now - farm.updatedAt);
      BudgetIsProduct(now - farm.updatedAt, farm.maxReward);
    }
  }

  lemma PacingOnAccrual(farm: Farm, farm': Farm, a: Audit, reward: nat, now: nat)
    requires PacingOK(farm, a, now)
    requires farm' == farm.(updatedAt := farm'.updatedAt, accRpz := farm'.accRpz,
                            accRewards := farm.accRewards + reward)
    requires farm.updatedAt <= farm'.updatedAt <= now
    requires reward <= Budget(farm'.updatedAt - farm.updatedAt, farm.maxReward)
    ensures PacingOK(farm', AuditAfter(a, reward, 0), now)
  {
    BudgetSplits(farm.updatedAt - a.created, farm'.updatedAt - farm.updatedAt, farm.maxReward);
  }

  lemma FarmAccrualPaced(farm: Farm, farmId: PoolId, ledger: Ledger, now: nat, farm': Farm, reward: nat, a: Audit)
    requires MaybeUpdateFarm(farm, farmId, ledger, now) == Ok((farm', reward))
    requires PacingOK(farm, a, now)
    ensures farm' == farm.(updatedAt := farm'.updatedAt, accRpz := farm'.accRpz, accRewards := farm.accRewards + reward)
    ensures farm.accRpz <= farm'.accRpz
    ensures PacingOK(farm', AuditAfter(a, reward, 0), now)
  {
    FarmAccrual(farm, farmId, ledger, now, farm', reward);
    PacingOnAccrual(farm, farm', a, reward, now);
  }

  lemma SpreadFloor(pool: Pool, rewards: nat, now: nat, farmId: PoolId, currency: AssetId, ledger: Ledger, pool': Pool,
                    ledger': Ledger, moved: nat)
    requires UpdateLiqPool(pool, rewards, now, farmId, currency, ledger) == Ok((pool', ledger', moved))
    requires pool.updatedAt != now && pool.totalValued != 0
    ensures moved == rewards
    ensures pool' == pool.(accRpvs := pool'.accRpvs, updatedAt := now)
    ensures pool.accRpvs <= pool'.accRpvs && (pool'.accRpvs - pool.accRpvs) * pool.totalValued <= moved
    ensures Transfer(ledger, currency, MiningPool(farmId), MiningPool(pool.id), moved) == Some(ledger')
  {
    FloorBounds(rewards, pool.totalValued);
    DivAtLeast(rewards, pool.totalValued, 0);
  }

  /** What `MaybeUpdatePools` may do to a pool: nothing, or raise its accumulator by no more, over all valued
      shares, than moved from the farm's account to the pool's. */
  ghost predicate Drew(farmId: PoolId, currency: AssetId, pool: Pool, ledger: Ledger, now: nat, u: Accrual) {
    || (u.pool.accRpvs == pool.accRpvs && u.pool.updatedAt == pool.updatedAt && u.ledger == ledger && u.moved == 0)
    || (&& pool.totalValued > 0 && !pool.canceled
        && pool.accRpvs <= u.pool.accRpvs && (u.pool.accRpvs - pool.accRpvs) * pool.totalValued <= u.moved
        && u.pool.updatedAt == now
        && Transfer(ledger, currency, MiningPool(farmId), MiningPool(pool.id), u.moved) == Some(u.ledger))
  }

  lemma PoolAccrual(farm: Farm, farmId: PoolId, pool: Pool, ledger: Ledger, now: nat, u: Accrual, a: Audit)
    requires MaybeUpdatePools(farm, farmId, pool, ledger, now) == Ok(u)
    requires PacingOK(farm, a, now) && pool.accRpz <= farm.accRpz
    ensures PacingOK(u.farm, AuditAfter(a, u.accrued, u.moved), now)
    ensures u.farm == farm.(updatedAt := u.farm.updatedAt, accRpz := u.farm.accRpz, accRewards := u.farm.accRewards,
                            paidRewards := u.farm.paidRewards)
    ensures u.pool == pool.(accRpvs := u.pool.accRpvs, accRpz := u.pool.accRpz, updatedAt := u.pool.updatedAt)
    ensures farm.accRpz <= u.farm.accRpz && pool.accRpz <= u.pool.accRpz <= u.farm.accRpz
    ensures Drew(farmId, farm.currency, pool, ledger, now, u)
  {
    if !(pool.canceled || pool.totalShares == 0 || pool.updatedAt == now) {
      var (farm1, accrued) := MaybeUpdateFarm(farm, farmId, ledger, now).value;
      FarmAccrualPaced(farm, farmId, ledger, now, farm1, accrued, a);
      var (farm2, pool1, rewards) := ClaimFromGlobalPool(farm1, pool).value;
      if pool.totalValued != 0 {
        SpreadFloor(pool1, rewards, now, farmId, farm2.currency, ledger, u.pool, u.ledger, u.moved);
      }
    }
  }

  lemma PoolsSameStakes(pools: map<Key, Pool>, k: Key, pool: Pool, f: PoolId)
    requires k in pools && pool.stake == pools[k].stake && pool.id == pools[k].id
    ensures StakesIn(pools[k := pool], f) == StakesIn(pools, f)
    ensures Ids(pools[k := pool]) == Ids(pools)
    ensures pools[k := pool].Keys == pools.Keys
  {
  }

  /** Balances of accounts a transfer does not name. */
  lemma TransferFrame(l: Ledger, asset: AssetId, from: AccountId, to: AccountId, amount: nat, a: AssetId,
                      who: AccountId)
    requires Transfer(l, asset, from, to, amount).Some?
    ensures a != asset || who != from ==> Free(l, a, who) <= Free(Transfer(l, asset, from, to, amount).value, a, who)
    ensures a != asset || (who != from && who != to) ==>
              Free(l, a, who) == Free(Transfer(l, asset, from, to, amount).value, a, who)
  {
  }

  /** All that the invariant needs to know about an accrual `u` of the pool at `key`. */
  ghost predicate Accrued(s: State, key: Key, u: Accrual, now: nat)
    requires Stored(s, key)
  {
    var farm, pool := s.farms[key.0], s.pools[key];
    && u.farm == farm.(updatedAt := u.farm.updatedAt, accRpz := u.farm.accRpz, accRewards := u.farm.accRewards,
                       paidRewards := u.farm.paidRewards)
    && u.pool == pool.(accRpvs := u.pool.accRpvs, accRpz := u.pool.accRpz, updatedAt := u.pool.updatedAt)
    && farm.accRpz <= u.farm.accRpz && pool.accRpz <= u.pool.accRpz <= u.farm.accRpz
    && Drew(key.0, farm.currency, pool, s.ledger, now, u)
  }

  /** The view of the touched pool: funds grow by exactly what moved. */
  lemma ViewAfterAccrual(s: State, key: Key, u: Accrual, now: nat)
    requires key in s.pools && Stored(s, key) && s.pools[key].id in s.rounding && s.pools[key].id != key.0
    requires Accrued(s, key, u, now)
    ensures ViewOf(Committed(s, key, u), key) ==
            ViewOf(s, key).(pool := u.pool, funds := ViewOf(s, key).funds + u.moved)
  {
  }

  lemma TouchedPool(cfg: Config, s: State, key: Key, u: Accrual)
    requires key in s.pools && Stored(s, key) && PoolInv(cfg, s, key) && s.pools[key].id != key.0
    requires Accrued(s, key, u, Now(s, key.0))
    ensures PoolInv(cfg, Committed(s, key, u), key)
  {
    hide TotalsOK, Solvent, DepositsOK, Total, Elapsed;
    var now, pool := Now(s, key.0), s.pools[key];
    ViewAfterAccrual(s, key, u, now);
    var v := ViewOf(s, key);
    var v' := v.(pool := u.pool, funds := v.funds + u.moved);
    if u.moved == 0 && u.pool.accRpvs == pool.accRpvs && u.pool.updatedAt == pool.updatedAt && u.ledger == s.ledger {
      DriftKeeps(cfg, v, v', now, now);
    } else {
      AccrualKeeps(cfg, v, v', u.moved, u.pool.accRpvs - pool.accRpvs, now, now);
    }
  }

  lemma TouchedOthers(cfg: Config, s: State, key: Key, u: Accrual, now: nat, k: Key)
    requires Stored(s, key) && Accrued(s, key, u, now)
    requires k in s.pools && k != key && PoolInv(cfg, s, k)
    requires s.pools[k].id != key.0
    ensures PoolInv(cfg, Committed(s, key, u), k)
  {
    if u.ledger != s.ledger {
      TransferFrame(s.ledger, s.farms[key.0].currency, MiningPool(key.0), MiningPool(s.pools[key].id), u.moved,
                    s.farms[k.0].currency, MiningPool(s.pools[k].id));
    }
    PoolFrame(cfg, s, Committed(s, key, u), k);
  }

  ghost predicate Paced(s: State, key: Key, u: Accrual, now: nat)
    requires Stored(s, key)
  {
    PacingOK(u.farm, AuditAfter(s.audit[key.0], u.accrued, u.moved), now)
  }

  lemma TouchedFarms(s: State, key: Key, u: Accrual, now: nat, f: PoolId)
    requires Stored(s, key) && Accrued(s, key, u, now) && Paced(s, key, u, now)
    requires f in s.farms && FarmInv(s, f)
    requires f == key.0 ==> now == Now(s, key.0)
    ensures FarmInv(Committed(s, key, u), f)
  {
    hide PacingOK, Elapsed, Drew;
    PoolsSameStakes(s.pools, key, u.pool, f);
    if f != key.0 {
      FarmFrame(s, Committed(s, key, u), f);
    }
  }

  lemma TouchAccrues(cfg: Config, s: State, key: Key, now: nat, s': State) returns (u: Accrual)
    requires Inv(cfg, s) && Stored(s, key) && s.farms[key.0].blocksPerPeriod > 0 && now == Now(s, key.0)
    requires Touch(s, key, now) == Ok(s')
    ensures Accrued(s, key, u, now) && Paced(s, key, u, now) && s' == Committed(s, key, u)
  {
    hide MaybeUpdateFarm, ClaimFromGlobalPool, UpdateLiqPool, PacingOK, FarmTotalsOK, PoolOK;
    u := MaybeUpdatePools(s.farms[key.0], key.0, s.pools[key], s.ledger, now).value;
    assert PoolInv(cfg, s, key) && FarmInv(s, key.0);
    PoolAccrual(s.farms[key.0], key.0, s.pools[key], s.ledger, now, u, s.audit[key.0]);
  }

  lemma CommittedPools(cfg: Config, s: State, key: Key, u: Accrual)
    requires Inv(cfg, s) && Stored(s, key) && s.farms[key.0].blocksPerPeriod > 0
    requires Accrued(s, key, u, Now(s, key.0))
    ensures PoolsOK(cfg, Committed(s, key, u))
  {
    hide PacingOK, FarmTotalsOK, PoolOK, Elapsed, Drew;
    var s', now := Committed(s, key, u), Now(s, key.0);
    forall k | k in s'.pools
      ensures PoolInv(cfg, s', k)
    {
      IdsDistinct(s, key, k);
      IdsDistinct(s, k, key);
      assert PoolInv(cfg, s, k);
      if k == key { TouchedPool(cfg, s, key, u); } else { TouchedOthers(cfg, s, key, u, now, k); }
    }
  }

  lemma CommittedFarms(cfg: Config, s: State, key: Key, u: Accrual)
    requires Inv(cfg, s) && Stored(s, key) && s.farms[key.0].blocksPerPeriod > 0
    requires Accrued(s, key, u, Now(s, key.0)) && Paced(s, key, u, Now(s, key.0))
    ensures StructureOK(Committed(s, key, u))
    ensures FarmsOK(Committed(s, key, u))
  {
    hide PacingOK, FarmTotalsOK, PoolOK, Elapsed, Drew;
    var s', now := Committed(s, key, u), Now(s, key.0);
    PoolsSameStakes(s.pools, key, u.pool, key.0);
    assert s'.farms.Keys == s.farms.Keys && s'.audit.Keys == s.audit.Keys;
    forall f | f in s'.farms
      ensures FarmInv(s', f)
    {
      assert FarmInv(s, f);
      TouchedFarms(s, key, u, now, f);
    }
  }

  /** Accrual keeps the invariant, and moves neither deposits nor stakes. */
  lemma TouchKeeps(cfg: Config, s: State, key: Key, now: nat, s': State)
    requires Inv(cfg, s) && Stored(s, key) && s.farms[key.0].blocksPerPeriod > 0 && now == Now(s, key.0)
    requires Touch(s, key, now) == Ok(s')
    ensures Inv(cfg, s')
    ensures s' == s.(farms := s'.farms, pools := s'.pools, ledger := s'.ledger, audit := s'.audit)
    ensures Stored(s', key) && s'.farms[key.0].blocksPerPeriod == s.farms[key.0].blocksPerPeriod
    ensures s'.farms[key.0].currency == s.farms[key.0].currency
    ensures s'.pools[key].canceled == s.pools[key].canceled && s'.pools[key].id == s.pools[key].id
    ensures s'.farms.Keys == s.farms.Keys && s'.pools.Keys == s.pools.Keys
  {
    hide MaybeUpdatePools, PacingOK, FarmTotalsOK, PoolOK, Elapsed, Drew;
    var u := TouchAccrues(cfg, s, key, now, s');
    CommittedPools(cfg, s, key, u);
    CommittedFarms(cfg, s, key, u);
  }

  lemma FarmTouched(s: State, farmId: PoolId, farm': Farm, reward: nat, f: PoolId)
    requires farmId in s.farms && farmId in s.audit && f in s.farms && FarmInv(s, f)
    requires var farm := s.farms[farmId];
             farm' == farm.(updatedAt := farm'.updatedAt, accRpz := farm'.accRpz, accRewards := farm'.accRewards)
    requires f == farmId ==> PacingOK(farm', AuditAfter(s.audit[f], reward, 0), Now(s, f))
    ensures FarmInv(Booked(s, farmId, reward, 0).(farms := s.farms[farmId := farm']), f)
  {
    if f != farmId { FarmFrame(s, Booked(s, farmId, reward, 0).(farms := s.farms[farmId := farm']), f); }
  }

  /** The farm accrues alone, as before adding or resuming a pool. */
  lemma TouchFarmKeeps(cfg: Config, s: State, farmId: PoolId, now: nat, s': State)
    requires Inv(cfg, s) && farmId in s.farms && farmId in s.audit && s.farms[farmId].blocksPerPeriod > 0
    requires now == Now(s, farmId)
    requires TouchFarm(s, farmId, now) == Ok(s')
    ensures Inv(cfg, s')
    ensures s' == s.(farms := s'.farms, audit := s'.audit)
    ensures s'.farms.Keys == s.farms.Keys && s'.audit.Keys == s.audit.Keys
    ensures var farm, farm' := s.farms[farmId], s'.farms[farmId];
            farm' == farm.(updatedAt := farm'.updatedAt, accRpz := farm'.accRpz, accRewards := farm'.accRewards)
  {
    hide UpdateGlobalPool, RewardPerPeriod, PacingOK, FarmTotalsOK, PoolOK, Elapsed;
    var (farm', reward) := MaybeUpdateFarm(s.farms[farmId], farmId, s.ledger, now).value;
    assert FarmInv(s, farmId);
    FarmAccrualPaced(s.farms[farmId], farmId, s.ledger, now, farm', reward, s.audit[farmId]);
    FarmCommitted(cfg, s, farmId, farm', reward);
  }

  lemma FarmCommitted(cfg: Config, s: State, farmId: PoolId, farm': Farm, reward: nat)
    requires Inv(cfg, s) && farmId in s.farms && farmId in s.audit && s.farms[farmId].blocksPerPeriod > 0
    requires var farm := s.farms[farmId];
             && farm' == farm.(updatedAt := farm'.updatedAt, accRpz := farm'.accRpz, accRewards := farm'.accRewards)
             && farm.accRpz <= farm'.accRpz
    requires PacingOK(farm', AuditAfter(s.audit[farmId], reward, 0), Now(s, farmId))
    ensures Inv(cfg, Booked(s, farmId, reward, 0).(farms := s.farms[farmId := farm']))
  {
    hide PacingOK, FarmTotalsOK, PoolOK, Elapsed;
    var s' := Booked(s, farmId, reward, 0).(farms := s.farms[farmId := farm']);
    assert s'.farms.Keys == s.farms.Keys && s'.audit.Keys == s.audit.Keys;
    forall f | f in s'.farms
      ensures FarmInv(s', f)
    {
      assert FarmInv(s, f);
      FarmTouched(s, farmId, farm', reward, f);
    }
    forall k | k in s'.pools
      ensures PoolInv(cfg, s', k)
    {
      assert PoolInv(cfg, s, k);
      PoolFrame(cfg, s, s', k);
    }
  }
}
