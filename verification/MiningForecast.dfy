/** What an accrual comes to, in numbers that can be read off a farm, a pool and the farm's pot before any call, and
    exactly when it goes through. */
module MiningForecast {
  import opened Basics
  import opened Rounding
  import opened Ledgers
  import opened Mining

  /** Rewards per period before the cap. */
  function Uncapped(farm: Farm): nat { FixedMul(farm.yieldPerMillion * (FIXED_ONE / 1_000_000), farm.totalSharesZ) }

  function RateOf(farm: Farm): nat { Min(Uncapped(farm), farm.maxReward) }

  /** The farm has shares and has not been updated this period. */
  predicate Lagging(farm: Farm, now: nat) { farm.totalSharesZ != 0 && farm.updatedAt != now }

  /** What the farm accrues now: periods times rate, at most what its pot holds. */
  function Reward(farm: Farm, pot: nat, now: nat): nat
    requires farm.updatedAt <= now
  {
    if Lagging(farm, now) then Min((now - farm.updatedAt) * RateOf(farm), pot) else 0
  }

  /** A reward per share, rounded down; nothing per no shares. */
  function PerShare(reward: nat, shares: nat): nat { if shares == 0 then 0 else reward / shares }

  /** The farm's accumulator after that. */
  function RpzAfter(farm: Farm, pot: nat, now: nat): nat
    requires farm.updatedAt <= now
  {
    farm.accRpz + PerShare(Reward(farm, pot, now), farm.totalSharesZ)
  }

  /** A canceled, an empty or an already updated pool draws nothing. */
  predicate Idle(pool: Pool, now: nat) { pool.canceled || pool.totalShares == 0 || pool.updatedAt == now }

  /** What the pool draws: the growth of the farm's accumulator since its last draw, times its stake. */
  function Draw(farm: Farm, pool: Pool, pot: nat, now: nat): nat
    requires farm.updatedAt <= now && pool.accRpz <= farm.accRpz
  {
    (RpzAfter(farm, pot, now) - pool.accRpz) * pool.stake
  }

  /** The pool's accumulator after the accrual. */
  function RpvsAfter(farm: Farm, pool: Pool, pot: nat, now: nat): nat
    requires farm.updatedAt <= now && pool.accRpz <= farm.accRpz
  {
    if Idle(pool, now) then pool.accRpvs else pool.accRpvs + PerShare(Draw(farm, pool, pot, now), pool.totalValued)
  }

  /** Every number of the farm's own update fits 128 bits. */
  predicate FarmFits(farm: Farm, pot: nat, now: nat)
    requires farm.updatedAt <= now
  {
    Lagging(farm, now) ==>
      && Uncapped(farm) <= MAX_U128 && (now - farm.updatedAt) * RateOf(farm) <= MAX_U128
      && (Reward(farm, pot, now) > 0 ==>
            RpzAfter(farm, pot, now) <= MAX_U128 && farm.accRewards + Reward(farm, pot, now) <= MAX_U128)
  }

  /** The farm covers the draw: out of what it has accrued and, if the pool has valued shares, out of its pot. */
  predicate FarmCovers(farm: Farm, pool: Pool, pot: nat, now: nat)
    requires farm.updatedAt <= now && pool.accRpz <= farm.accRpz
  {
    var draw := Draw(farm, pool, pot, now);
    && draw <= farm.accRewards + Reward(farm, pot, now)
    && (pool.totalValued > 0 ==> draw <= pot)
  }

  predicate DrawFits(farm: Farm, pool: Pool, pot: nat, now: nat)
    requires farm.updatedAt <= now && pool.accRpz <= farm.accRpz
  {
    var draw := Draw(farm, pool, pot, now);
    && draw <= MAX_U128 && farm.paidRewards + draw <= MAX_U128
    && (pool.totalValued > 0 ==> RpvsAfter(farm, pool, pot, now) <= MAX_U128)
  }

  lemma FarmUpdateIff(farm: Farm, farmId: PoolId, ledger: Ledger, now: nat)
    requires farm.updatedAt <= now && farmId != 0
    ensures var pot := Free(ledger, farm.currency, MiningPool(farmId));
            var r := MaybeUpdateFarm(farm, farmId, ledger, now);
            && (r.Ok? <==> FarmFits(farm, pot, now))
            && (r.Ok? ==>
                  && r.value.1 == Reward(farm, pot, now)
                  && r.value.0 == farm.(updatedAt := if Lagging(farm, now) then now else farm.updatedAt,
                                        accRpz := RpzAfter(farm, pot, now),
                                        accRewards := farm.accRewards + Reward(farm, pot, now)))
  {
    hide Free, FixedMul;
    var pot := Free(ledger, farm.currency, MiningPool(farmId));
    if Lagging(farm, now) && Reward(farm, pot, now) == 0 {
      DivBelow(0, farm.totalSharesZ, 1);
      DivAtLeast(0, farm.totalSharesZ, 0);
    }
  }

  lemma ClaimFromFarmIff(farm: Farm, pool: Pool)
    requires pool.accRpz <= farm.accRpz
    ensures var draw := (farm.accRpz - pool.accRpz) * pool.stake;
            var r := ClaimFromGlobalPool(farm, pool);
            && (r.Ok? <==> draw <= MAX_U128 && farm.paidRewards + draw <= MAX_U128 && draw <= farm.accRewards)
            && (r.Ok? ==> r.value == (farm.(paidRewards := farm.paidRewards + draw,
                                            accRewards := farm.accRewards - draw),
                                      pool.(accRpz := farm.accRpz), draw))
  {
  }

  lemma UpdatePoolIff(pool: Pool, draw: nat, now: nat, farmId: PoolId, currency: AssetId, ledger: Ledger)
    requires pool.updatedAt != now && farmId != 0 && pool.id != 0
    ensures var pot := Free(ledger, currency, MiningPool(farmId));
            var r := UpdateLiqPool(pool, draw, now, farmId, currency, ledger);
            && (r.Ok? <==> (pool.totalValued > 0 ==>
                              pool.accRpvs + PerShare(draw, pool.totalValued) <= MAX_U128 && draw <= pot))
            && (r.Ok? ==>
                  r.value.0 == pool.(accRpvs := pool.accRpvs + PerShare(draw, pool.totalValued),
                                     updatedAt := if pool.totalValued == 0 then pool.updatedAt else now))
  {
    hide Free;
  }

  /** Farm and pool after an accrual, to the last field. An idle pool leaves both alone. Otherwise the farm's books
      move by the reward and the draw, the pool catches up with the farm, and clocks go to `now`: the farm's if it
      lagged behind, the pool's if there are valued shares to reward. */
  predicate AccruedTo(farm: Farm, pool: Pool, pot: nat, now: nat, farm': Farm, pool': Pool)
    requires farm.updatedAt <= now && pool.accRpz <= farm.accRpz
  {
    if Idle(pool, now) then farm' == farm && pool' == pool
    else
      var reward, draw := Reward(farm, pot, now), Draw(farm, pool, pot, now);
      && farm' == farm.(updatedAt := if Lagging(farm, now) then now else farm.updatedAt,
                        accRpz := RpzAfter(farm, pot, now), accRewards := farm'.accRewards,
                        paidRewards := farm.paidRewards + draw)
      && farm'.accRewards + draw == farm.accRewards + reward
      && pool' == pool.(accRpz := RpzAfter(farm, pot, now), accRpvs := RpvsAfter(farm, pool, pot, now),
                        updatedAt := if pool.totalValued == 0 then pool.updatedAt else now)
  }

  /** An accrual goes through exactly when the pool is idle, or the farm covers the draw and all numbers fit 128
      bits. */
  lemma AccrualSucceedsIff(farm: Farm, farmId: PoolId, pool: Pool, ledger: Ledger, now: nat)
    requires farm.updatedAt <= now && pool.accRpz <= farm.accRpz && farmId != 0 && pool.id != 0
    ensures var pot := Free(ledger, farm.currency, MiningPool(farmId));
            var r := MaybeUpdatePools(farm, farmId, pool, ledger, now);
            && (r.Ok? <==>
                  || Idle(pool, now)
                  || (FarmFits(farm, pot, now) && DrawFits(farm, pool, pot, now) && FarmCovers(farm, pool, pot, now)))
            && (r.Ok? ==> AccruedTo(farm, pool, pot, now, r.value.farm, r.value.pool))
  {
    hide Free, FixedMul, MaybeUpdateFarm, ClaimFromGlobalPool, UpdateLiqPool, Reward, FarmFits, PerShare;
    var pot := Free(ledger, farm.currency, MiningPool(farmId));
    if !Idle(pool, now) {
      FarmUpdateIff(farm, farmId, ledger, now);
      var r1 := MaybeUpdateFarm(farm, farmId, ledger, now);
      if r1.Ok? {
        var farm1 := r1.value.0;
        ClaimFromFarmIff(farm1, pool);
        var r2 := ClaimFromGlobalPool(farm1, pool);
        if r2.Ok? {
          var (farm2, pool1, draw) := r2.value;
          UpdatePoolIff(pool1, draw, now, farmId, farm2.currency, ledger);
        }
      }
    }
  }

  // On storage.

  function PotOfFarm(s: State, f: PoolId): nat
    requires f in s.farms
  {
    Free(s.ledger, s.farms[f].currency, MiningPool(f))
  }

  predicate Ordered(s: State, key: Key, now: nat) {
    Stored(s, key) && s.farms[key.0].updatedAt <= now && s.pools[key].accRpz <= s.farms[key.0].accRpz
  }

  /** The pool can accrue now. */
  predicate Accrues(s: State, key: Key, now: nat)
    requires Ordered(s, key, now)
  {
    var farm, pool, pot := s.farms[key.0], s.pools[key], PotOfFarm(s, key.0);
    Idle(pool, now) || (FarmFits(farm, pot, now) && DrawFits(farm, pool, pot, now) && FarmCovers(farm, pool, pot, now))
  }

  /** The pool as far as a claim depends on it, after accruing now. */
  function AccruedPool(s: State, key: Key, now: nat): Pool
    requires Ordered(s, key, now)
  {
    s.pools[key].(accRpvs := RpvsAfter(s.farms[key.0], s.pools[key], PotOfFarm(s, key.0), now))
  }

  lemma TouchSucceedsIff(s: State, key: Key, now: nat)
    requires Ordered(s, key, now) && key.0 != 0 && s.pools[key].id != 0
    ensures Touch(s, key, now).Ok? <==> Accrues(s, key, now)
    ensures Touch(s, key, now).Ok? ==>
              var s' := Touch(s, key, now).value;
              && s'.farms == s.farms[key.0 := s'.farms[key.0]] && s'.pools == s.pools[key := s'.pools[key]]
              && AccruedTo(s.farms[key.0], s.pools[key], PotOfFarm(s, key.0), now, s'.farms[key.0], s'.pools[key])
              && s'.pools[key].accRpvs == AccruedPool(s, key, now).accRpvs && s'.pools[key].curve == s.pools[key].curve
  {
    hide MaybeUpdatePools, Free, FarmFits, DrawFits, FarmCovers, Draw, RpzAfter, PerShare, Reward;
    AccrualSucceedsIff(s.farms[key.0], key.0, s.pools[key], s.ledger, now);
  }

  /** Updating the farm alone. */
  lemma TouchFarmIff(s: State, f: PoolId, now: nat)
    requires f in s.farms && f in s.audit && f != 0 && s.farms[f].updatedAt <= now
    ensures var farm, pot := s.farms[f], PotOfFarm(s, f);
            var r := TouchFarm(s, f, now);
            && (r.Ok? <==> FarmFits(farm, pot, now))
            && (r.Ok? ==>
                  && r.value == s.(farms := s.farms[f := r.value.farms[f]], audit := r.value.audit)
                  && r.value.farms[f] == farm.(updatedAt := if Lagging(farm, now) then now else farm.updatedAt,
                                               accRpz := RpzAfter(farm, pot, now),
                                               accRewards := farm.accRewards + Reward(farm, pot, now)))
  {
    hide MaybeUpdateFarm, Free, Reward, RpzAfter, FarmFits;
    FarmUpdateIff(s.farms[f], f, s.ledger, now);
  }
}
