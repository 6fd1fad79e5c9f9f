/** What a depositor can count on: when claims and withdrawals succeed, what they pay, and what they cannot
    fail for. */
module MiningClaims {
  import opened Basics
  import opened Rounding
  import opened Ledgers
  import opened NftIds
  import opened Mining
  import opened MiningPools
  import opened MiningInvariant
  import opened MiningAccrual
  import opened MiningForecast
  import opened MiningSteps
  import opened MiningCalls
  import opened MiningRuns

  /** The farm cannot cover the pool's share, or a number leaves 128 bits. */
  predicate FarmShort(e: Error) {
    e == Overflow || e == Underflow(FarmAccrued) || e == InsufficientBalanceInGlobalPool
  }

  lemma FarmUpdateErrors(farm: Farm, farmId: PoolId, ledger: Ledger, now: nat)
    requires farm.updatedAt <= now && farmId != 0
    requires MaybeUpdateFarm(farm, farmId, ledger, now).Err?
    ensures MaybeUpdateFarm(farm, farmId, ledger, now).error == Overflow
  {
    hide FixedMul;
  }

  /** Accrual fails only because the farm falls short or a number overflows, never for clock or accumulator order. */
  lemma AccrualErrors(farm: Farm, farmId: PoolId, pool: Pool, ledger: Ledger, now: nat, a: Audit)
    requires PacingOK(farm, a, now) && pool.accRpz <= farm.accRpz && farmId != 0 && pool.id != 0
    requires MaybeUpdatePools(farm, farmId, pool, ledger, now).Err?
    ensures FarmShort(MaybeUpdatePools(farm, farmId, pool, ledger, now).error)
  {
    hide MaybeUpdateFarm, Budget;
    var r := MaybeUpdateFarm(farm, farmId, ledger, now);
    if r.Err? {
      FarmUpdateErrors(farm, farmId, ledger, now);
    } else {
      FarmAccrualPaced(farm, farmId, ledger, now, r.value.0, r.value.1, a);
    }
  }

  lemma TouchErrors(cfg: Config, s: State, key: Key, now: nat)
    requires Inv(cfg, s) && Stored(s, key) && s.farms[key.0].blocksPerPeriod > 0 && now == Now(s, key.0)
    requires Touch(s, key, now).Err?
    ensures FarmShort(Touch(s, key, now).error)
  {
    hide MaybeUpdatePools, PoolOK, FarmTotalsOK, Elapsed, PacingOK, FarmShort;
    PoolBounds(cfg, s, key);
    assert FarmInv(s, key.0);
    AccrualErrors(s.farms[key.0], key.0, s.pools[key], s.ledger, now, s.audit[key.0]);
  }

  // Claims.

  /** Without a loyalty curve, or with one that starts at the whole reward, nothing is held back. */
  predicate NothingHeldBack(curve: Option<Curve>) { curve.None? || curve.value.initialReward == FIXED_ONE }

  predicate HasLoyalty(cfg: Config, curve: Option<Curve>, periods: nat) {
    NothingHeldBack(curve) || cfg.loyalty(curve.value, periods).Some?
  }

  /** How much of what was earned a deposit may have after so many periods: all of it, or what the curve says, rounded
      down. */
  function LoyalShare(cfg: Config, curve: Option<Curve>, periods: nat, earned: nat): nat
    requires HasLoyalty(cfg, curve, periods)
  {
    if NothingHeldBack(curve) then earned else cfg.loyalty(curve.value, periods).value * earned / FIXED_ONE
  }

  lemma LoyaltyIs(cfg: Config, curve: Option<Curve>, periods: nat, earned: nat)
    ensures var r := LoyaltyMultiplier(cfg, periods, curve);
            && (r.Ok? <==> HasLoyalty(cfg, curve, periods))
            && (r.Ok? ==> FixedMul(r.value, earned) == LoyalShare(cfg, curve, periods, earned))
  {
    DivAtLeast(FIXED_ONE * earned, FIXED_ONE, earned);
    DivBelow(FIXED_ONE * earned, FIXED_ONE, earned + 1);
  }

  /** The loyalty multiplier exists and the earnings fit 128 bits: the only conditions on a deposit's own claim. */
  predicate Payable(cfg: Config, pool: Pool, d: Stake, now: nat) {
    && d.enteredAt <= now
    && HasLoyalty(cfg, pool.curve, now - d.enteredAt)
    && Most(pool.accRpvs, d) <= MAX_U128
  }

  lemma LoyaltyErrors(cfg: Config, periods: nat, curve: Option<Curve>)
    requires LoyaltyMultiplier(cfg, periods, curve).Err?
    ensures LoyaltyMultiplier(cfg, periods, curve).error == Overflow
  {
  }

  lemma ClaimFits(cfg: Config, pool: Pool, d: Stake, loyalty: nat, now: nat, funds: nat)
    requires Lawful(cfg) && DepositOK(cfg, pool.curve, pool.accRpvs, d, now)
    requires LoyaltyMultiplier(cfg, now - d.enteredAt, pool.curve) == Ok(loyalty)
    requires OwedFn(pool.accRpvs)(d) <= funds && Most(pool.accRpvs, d) <= MAX_U128
    ensures UserReward(d, pool.accRpvs, loyalty).Ok?
    ensures var (reward, _) := UserReward(d, pool.accRpvs, loyalty).value;
            && d.claimed + reward == FixedMul(loyalty, Most(pool.accRpvs, d)) <= MAX_U128
            && reward <= funds
  {
    hide FixedMul, Most, Vested;
    ClaimArithmetic(cfg, pool.curve, pool.accRpvs, d, loyalty, now);
  }

  /** A claim on a stored pool succeeds exactly when it is payable or already made this period; the pool's account
      never lacks the funds, and nothing underflows. */
  lemma DoClaimSucceeds(cfg: Config, s: State, key: Key, nft: NftId, who: nat, now: nat)
    requires Lawful(cfg) && Inv(cfg, s) && Stored(s, key) && nft in s.deposits
    requires s.farms[key.0].blocksPerPeriod > 0 && now == Now(s, key.0)
    requires DecodePool(nft) == Some(s.pools[key].id)
    ensures var r, d := DoClaim(cfg, s, key, nft, who, now), s.deposits[nft];
            && (r.Ok? <==> d.updatedAt == now || Payable(cfg, s.pools[key], d, now))
            && (r.Err? ==> r.error == Overflow)
  {
    hide Inv, Elapsed, DecodePool, FixedMul, UserReward, Vested, PoolInv, OwedFn, LoyaltyMultiplier, HasLoyalty;
    DepositSound(cfg, s, key, nft);
    OwedCovered(cfg, s, key, nft);
    PoolBounds(cfg, s, key);
    var d, pool := s.deposits[nft], s.pools[key];
    var loyalty := LoyaltyMultiplier(cfg, now - d.enteredAt, pool.curve);
    LoyaltyIs(cfg, pool.curve, now - d.enteredAt, 0);
    if d.updatedAt != now {
      if loyalty.Err? {
        LoyaltyErrors(cfg, now - d.enteredAt, pool.curve);
      } else {
        ClaimArithmetic(cfg, pool.curve, pool.accRpvs, d, loyalty.value, now);
        if Most(pool.accRpvs, d) <= MAX_U128 {
          ClaimFits(cfg, pool, d, loyalty.value, now, Free(s.ledger, s.farms[key.0].currency, MiningPool(pool.id)));
        }
      }
    }
  }

  lemma OwedCovered(cfg: Config, s: State, key: Key, nft: NftId)
    requires Lawful(cfg) && Inv(cfg, s) && Stored(s, key) && nft in s.deposits
    requires DecodePool(nft) == Some(s.pools[key].id)
    ensures 0 <= OwedFn(s.pools[key].accRpvs)(s.deposits[nft])
              <= Free(s.ledger, s.farms[key.0].currency, MiningPool(s.pools[key].id))
    ensures s.deposits[nft].shares <= s.pools[key].totalShares
    ensures s.deposits[nft].valued <= s.pools[key].totalValued
    ensures !s.pools[key].canceled ==>
              StakeFn(s.pools[key].multiplier)(s.deposits[nft]) <= s.pools[key].stake <= MAX_U128
  {
    hide FarmsOK, StructureOK, DepositsOK, TotalsOK, Solvent, Total, Elapsed, OwedFn, DecodePool, StakeFn;
    assert PoolInv(cfg, s, key);
    var v := ViewOf(s, key);
    assert v.deps[nft] == s.deposits[nft];
    ExitFits(cfg, v, nft, Now(s, key.0));
  }

  /** In every reachable state the owner's claim succeeds exactly when it is the first this period, the farm covers what
      the pool draws, and the earnings are payable. It never fails for want of funds in the pool. */
  lemma ClaimSucceedsIff(cfg: Config, s: State, who: nat, nft: NftId, key: Key, now: nat)
    requires Lawful(cfg) && Reachable(cfg, s)
    requires nft in s.deposits && nft in s.owners && s.owners[nft] == who
    requires key in s.pools && DecodePool(nft) == Some(s.pools[key].id) && !s.pools[key].canceled
    requires key.0 in s.farms && Period(s.block, s.farms[key.0].blocksPerPeriod) == Ok(now)
    ensures Ordered(s, key, now)
    ensures ClaimRewards(cfg, s, who, nft).Ok? <==>
              && s.deposits[nft].updatedAt != now
              && Accrues(s, key, now)
              && Payable(cfg, AccruedPool(s, key, now), s.deposits[nft], now)
    ensures ClaimRewards(cfg, s, who, nft).Err? ==>
              var e := ClaimRewards(cfg, s, who, nft).error;
              e == DoubleClaimInThePeriod || FarmShort(e)
  {
    hide Reachable, Elapsed, DecodePool, Touch, DoClaim, FarmsOK, PoolsOK, StructureOK, Payable, Accrues, AccruedPool;
    ReachableInv(cfg, s);
    DepositLinked(s, nft);
    StoredKey(s, key);
    Clocked(cfg, s, key.0);
    TouchForecast(cfg, s, key, nft, now);
    var r := Touch(s, key, now);
    if r.Err? {
      TouchErrors(cfg, s, key, now);
    } else {
      TouchKeeps(cfg, s, key, now, r.value);
      DoClaimSucceeds(cfg, r.value, key, nft, who, now);
    }
  }

  /** On consistent storage the forecast of an accrual is what the accrual does, and what a claim after it depends on.
      */
  lemma TouchForecast(cfg: Config, s: State, key: Key, nft: NftId, now: nat)
    requires Inv(cfg, s) && Stored(s, key) && s.farms[key.0].blocksPerPeriod > 0 && now == Now(s, key.0)
    requires nft in s.deposits
    ensures Ordered(s, key, now)
    ensures Touch(s, key, now).Ok? <==> Accrues(s, key, now)
    ensures Touch(s, key, now).Ok? ==>
              (Payable(cfg, Touch(s, key, now).value.pools[key], s.deposits[nft], now) <==>
               Payable(cfg, AccruedPool(s, key, now), s.deposits[nft], now))
  {
    hide Touch, Accrues, HasLoyalty, FarmTotalsOK, PoolOK, Elapsed, RpvsAfter;
    PoolBounds(cfg, s, key);
    ForecastOrder(cfg, s, key, now);
    TouchSucceedsIff(s, key, now);
  }

  lemma ForecastOrder(cfg: Config, s: State, key: Key, now: nat)
    requires Inv(cfg, s) && Stored(s, key) && s.farms[key.0].blocksPerPeriod > 0 && now == Now(s, key.0)
    ensures Ordered(s, key, now)
  {
    hide FarmTotalsOK, PoolOK, Elapsed;
    PoolBounds(cfg, s, key);
    assert FarmInv(s, key.0);
  }

  lemma StoredKey(s: State, key: Key)
    requires StructureOK(s) && key in s.pools
    ensures Stored(s, key) && s.pools[key].id in s.meta && KeyOf(s.meta[s.pools[key].id]) == key
  {
    IdsDistinct(s, key, key);
    assert Ids(s.pools)[key] == s.pools[key].id;
  }

  /** `d'` is deposit `d` with its claimed total at the loyalty share of all it has earned since entry. */
  predicate Settled(cfg: Config, pool: Pool, d: Stake, d': Stake, now: nat) {
    && d' == d.(claimed := d'.claimed, updatedAt := now)
    && d.enteredAt <= now && d.accRpvs <= pool.accRpvs
    && HasLoyalty(cfg, pool.curve, now - d.enteredAt) && Most(pool.accRpvs, d) >= 0
    && d'.claimed == LoyalShare(cfg, pool.curve, now - d.enteredAt, Most(pool.accRpvs, d))
  }

  /** Only the owner of a live deposit claims, from a live pool and once a period. */
  lemma OnlyOwnerClaims(cfg: Config, s: State, who: nat, nft: NftId)
    requires ClaimRewards(cfg, s, who, nft).Ok?
    ensures nft in s.deposits && nft in s.owners && s.owners[nft] == who
    ensures DecodePool(nft).Some? && DecodePool(nft).value in s.meta
    ensures var key := KeyOf(s.meta[DecodePool(nft).value]);
            && Stored(s, key) && !s.pools[key].canceled && s.farms[key.0].blocksPerPeriod > 0
            && s.deposits[nft].updatedAt != s.block / s.farms[key.0].blocksPerPeriod
  {
    hide DecodePool, Touch, DoClaim;
  }

  /** History independence: whatever a depositor claimed before and however often, after a successful claim the
      claimed total is the loyalty share, at the time since entry, of everything earned since entry; the payment
      is the difference, and it reaches the owner. */
  lemma ClaimedTotal(cfg: Config, s: State, who: nat, nft: NftId, key: Key, now: nat, s': State)
    requires Lawful(cfg) && Reachable(cfg, s) && ClaimRewards(cfg, s, who, nft) == Ok(s')
    requires key in s.pools && DecodePool(nft) == Some(s.pools[key].id) && nft in s.deposits
    requires key.0 in s.farms && Period(s.block, s.farms[key.0].blocksPerPeriod) == Ok(now)
    ensures key in s'.pools && nft in s'.deposits && key.0 in s'.farms
    ensures s'.deposits == s.deposits[nft := s'.deposits[nft]] && s'.owners == s.owners && s'.meta == s.meta
    ensures var d, d', pool := s.deposits[nft], s'.deposits[nft], s'.pools[key];
            && Settled(cfg, pool, d, d', now)
            && d.claimed <= d'.claimed
            && Free(s'.ledger, s'.farms[key.0].currency, User(who)) ==
               Free(s.ledger, s.farms[key.0].currency, User(who)) + (d'.claimed - d.claimed)
  {
    hide Reachable, Elapsed, DecodePool, Touch, FarmsOK, PoolsOK, StructureOK, FixedMul, UserReward, Vested, PaidClaim,
         LoyaltyMultiplier, LoyalShare, HasLoyalty;
    ReachableInv(cfg, s);
    DepositLinked(s, nft);
    StoredKey(s, key);
    Clocked(cfg, s, key.0);
    var s1 := Touch(s, key, now).value;
    TouchKeeps(cfg, s, key, now, s1);
    TouchSparesUsers(s, key, now, s1, s.farms[key.0].currency, User(who));
    var (s2, reward, unclaimable) := DoClaim(cfg, s1, key, nft, who, now).value;
    DepositSound(cfg, s1, key, nft);
    ClaimShape(cfg, s1, key, nft, who, now, s2, reward, unclaimable);
    LoyaltyIs(cfg, s1.pools[key].curve, now - s.deposits[nft].enteredAt, Most(s1.pools[key].accRpvs, s.deposits[nft]));
    PaidToOwner(cfg, s1, key, nft, who, now, s2, reward);
  }

  lemma PaidToOwner(cfg: Config, s: State, key: Key, nft: NftId, who: nat, now: nat, s': State, reward: nat)
    requires Stored(s, key) && nft in s.deposits && PaidClaim(cfg, s, key, nft, who, now, s', reward)
    ensures s'.deposits[nft] == s.deposits[nft].(claimed := s.deposits[nft].claimed + reward, updatedAt := now)
    ensures s' == s.(deposits := s'.deposits, ledger := s'.ledger)
    ensures Free(s'.ledger, s.farms[key.0].currency, User(who)) ==
            Free(s.ledger, s.farms[key.0].currency, User(who)) + reward
    ensures forall a :: Free(s'.ledger, a, MiningPallet) == Free(s.ledger, a, MiningPallet)
  {
    hide DepositOK, OwedFn;
  }

  /** Accrual moves funds between pool accounts only. */
  lemma TouchSparesUsers(s: State, key: Key, now: nat, s': State, a: AssetId, who: AccountId)
    requires Stored(s, key) && Touch(s, key, now) == Ok(s') && !who.MiningPool?
    ensures Free(s'.ledger, a, who) == Free(s.ledger, a, who)
  {
    hide MaybeUpdateFarm, ClaimFromGlobalPool, AccumulatedRps;
  }

  /** Two histories of claims that agree on what was earned end with the same claimed total. */
  lemma ClaimHistoryIndependence(cfg: Config, s: State, t: State, who: nat, nft: NftId, key: Key, now: nat, s': State,
                                 t': State)
    requires Lawful(cfg) && Reachable(cfg, s) && Reachable(cfg, t)
    requires ClaimRewards(cfg, s, who, nft) == Ok(s') && ClaimRewards(cfg, t, who, nft) == Ok(t')
    requires key in s.pools && DecodePool(nft) == Some(s.pools[key].id) && nft in s.deposits
    requires key in t.pools && t.pools[key].id == s.pools[key].id && nft in t.deposits
    requires key.0 in s.farms && Period(s.block, s.farms[key.0].blocksPerPeriod) == Ok(now)
    requires key.0 in t.farms && Period(t.block, t.farms[key.0].blocksPerPeriod) == Ok(now)
    requires t.deposits[nft] == s.deposits[nft].(claimed := t.deposits[nft].claimed,
                                                 updatedAt := t.deposits[nft].updatedAt)
    requires key in s'.pools && key in t'.pools && t'.pools[key] == s'.pools[key]
    ensures nft in s'.deposits && nft in t'.deposits && t'.deposits[nft] == s'.deposits[nft]
  {
    hide Reachable, DecodePool, ClaimRewards, LoyalShare, HasLoyalty, Lawful;
    ClaimedTotal(cfg, s, who, nft, key, now, s');
    ClaimedTotal(cfg, t, who, nft, key, now, t');
  }
}
