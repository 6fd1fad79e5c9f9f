/** Exactly when a deposit can be withdrawn through a stored pool, in numbers and on any storage: also through a pool
    that is not the one it was made in, which is what a deposit of a removed pool meets once its pair is added again. */
module MiningDepartures {
  import opened Basics
  import opened Ledgers
  import opened NftIds
  import opened Mining
  import opened MiningInvariant
  import opened MiningForecast
  import opened MiningClaims
  import opened MiningFlows
  import opened MiningRuns
  import opened MiningCustody
  import opened MiningShortFarm

  // Numbers.

  /** What the pool's account holds after accruing now. */
  function FundsAfter(s: State, key: Key, now: nat): nat
    requires Ordered(s, key, now)
  {
    var farm, pool := s.farms[key.0], s.pools[key];
    Free(s.ledger, farm.currency, MiningPool(pool.id)) +
    if Idle(pool, now) || pool.totalValued == 0 then 0 else Draw(farm, pool, PotOfFarm(s, key.0), now)
  }

  /** All the deposit earned up to an accumulator. */
  function Earned(d: Stake, rpvs: nat): nat
    requires d.accRpvs <= rpvs
  {
    (rpvs - d.accRpvs) * d.valued
  }

  /** What the deposit may have claimed by now: its loyalty share of what it earned. */
  function Vesting(cfg: Config, curve: Option<Curve>, d: Stake, rpvs: nat, now: nat): nat
    requires d.enteredAt <= now && d.accRpvs <= rpvs && HasLoyalty(cfg, curve, now - d.enteredAt)
  {
    LoyalShare(cfg, curve, now - d.enteredAt, Earned(d, rpvs))
  }

  /** The claim inside a withdrawal goes through: it was made this period already, or the deposit's accumulator is not
      ahead of the pool's, nothing overflows, no more was claimed than vests, and the pool's account has the rest. */
  predicate ClaimFits(cfg: Config, curve: Option<Curve>, d: Stake, rpvs: nat, funds: nat, now: nat) {
    && d.enteredAt <= now
    && (d.updatedAt != now ==>
          && HasLoyalty(cfg, curve, now - d.enteredAt) && d.accRpvs <= rpvs
          && Earned(d, rpvs) <= MAX_U128
          && d.claimed <= Vesting(cfg, curve, d, rpvs, now) <= Earned(d, rpvs)
          && Vesting(cfg, curve, d, rpvs, now) - d.claimed <= funds)
  }

  /** What that claim pays, and what the depositor forfeits. */
  function Payout(cfg: Config, curve: Option<Curve>, d: Stake, rpvs: nat, funds: nat, now: nat): nat
    requires ClaimFits(cfg, curve, d, rpvs, funds, now)
  {
    if d.updatedAt == now then 0 else Vesting(cfg, curve, d, rpvs, now) - d.claimed
  }

  function Forfeit(cfg: Config, curve: Option<Curve>, d: Stake, rpvs: nat, funds: nat, now: nat): nat
    requires ClaimFits(cfg, curve, d, rpvs, funds, now)
  {
    if d.updatedAt == now then 0 else Earned(d, rpvs) - Vesting(cfg, curve, d, rpvs, now)
  }

  /** The pool counts the deposit's shares, valued shares and, unless canceled, its stake, and so does the farm. */
  predicate Counted(farm: Farm, pool: Pool, d: Stake) {
    && d.shares <= pool.totalShares && d.valued <= pool.totalValued
    && (!pool.canceled ==> FixedMul(pool.multiplier, d.valued) <= Min(MAX_U128, Min(pool.stake, farm.totalSharesZ)))
  }

  /** The pool's part of a withdrawal goes through. */
  predicate MayExit(cfg: Config, s: State, key: Key, nft: NftId, now: nat)
    requires Ordered(s, key, now) && nft in s.deposits
  {
    var pool, d, funds := AccruedPool(s, key, now), s.deposits[nft], FundsAfter(s, key, now);
    && Accrues(s, key, now)
    && ClaimFits(cfg, pool.curve, d, pool.accRpvs, funds, now)
    && Counted(s.farms[key.0], pool, d)
    && Payout(cfg, pool.curve, d, pool.accRpvs, funds, now) +
       Forfeit(cfg, pool.curve, d, pool.accRpvs, funds, now) <= funds
  }

  // Step by step.

  /** What an accrual leaves alone, and what it brings into the pool's account. */
  lemma AccrualBrings(farm: Farm, farmId: PoolId, pool: Pool, ledger: Ledger, now: nat, u: Accrual)
    requires farm.updatedAt <= now && pool.accRpz <= farm.accRpz && farmId != 0 && pool.id !in {0, farmId}
    requires MaybeUpdatePools(farm, farmId, pool, ledger, now) == Ok(u)
    ensures u.pool == pool.(accRpvs := u.pool.accRpvs, accRpz := u.pool.accRpz, updatedAt := u.pool.updatedAt)
    ensures u.farm.totalSharesZ == farm.totalSharesZ && u.farm.currency == farm.currency
    ensures var pot := Free(ledger, farm.currency, MiningPool(farmId));
            Free(u.ledger, farm.currency, MiningPool(pool.id)) == Free(ledger, farm.currency, MiningPool(pool.id)) +
              if Idle(pool, now) || pool.totalValued == 0 then 0 else Draw(farm, pool, pot, now)
    ensures Free(u.ledger, farm.currency, MiningPool(farmId)) + Free(u.ledger, farm.currency, MiningPool(pool.id)) ==
            Free(ledger, farm.currency, MiningPool(farmId)) + Free(ledger, farm.currency, MiningPool(pool.id))
  {
    hide Free, MaybeUpdateFarm, ClaimFromGlobalPool, Reward, FarmFits, PerShare, Transfer, AccumulatedRps;
    if !Idle(pool, now) {
      FarmUpdateIff(farm, farmId, ledger, now);
      var farm1 := MaybeUpdateFarm(farm, farmId, ledger, now).value.0;
      ClaimFromFarmIff(farm1, pool);
      var (farm2, pool1, draw) := ClaimFromGlobalPool(farm1, pool).value;
      if pool.totalValued != 0 {
        TransferMoves(ledger, farm.currency, MiningPool(farmId), MiningPool(pool.id), draw,
                      farm.currency, MiningPool(pool.id));
        TransferMoves(ledger, farm.currency, MiningPool(farmId), MiningPool(pool.id), draw,
                      farm.currency, MiningPool(farmId));
      }
    }
  }

  lemma TouchBrings(s: State, key: Key, now: nat, s': State)
    requires Ordered(s, key, now) && key.0 != 0 && s.pools[key].id !in {0, key.0} && Touch(s, key, now) == Ok(s')
    ensures s'.pools[key] ==
            AccruedPool(s, key, now).(accRpz := s'.pools[key].accRpz, updatedAt := s'.pools[key].updatedAt)
    ensures s'.farms[key.0].totalSharesZ == s.farms[key.0].totalSharesZ
    ensures s'.farms[key.0].currency == s.farms[key.0].currency
    ensures Free(s'.ledger, s.farms[key.0].currency, MiningPool(s.pools[key].id)) == FundsAfter(s, key, now)
    ensures var cur, id := s.farms[key.0].currency, s.pools[key].id;
            Free(s'.ledger, cur, MiningPool(key.0)) + FundsAfter(s, key, now) ==
            Free(s.ledger, cur, MiningPool(key.0)) + Free(s.ledger, cur, MiningPool(id))
  {
    hide Free, MaybeUpdatePools, Draw, RpvsAfter, Accrues;
    TouchSucceedsIff(s, key, now);
    AccrualBrings(s.farms[key.0], key.0, s.pools[key], s.ledger, now,
                  MaybeUpdatePools(s.farms[key.0], key.0, s.pools[key], s.ledger, now).value);
  }

  lemma UserRewardIff(d: Stake, rpvs: nat, loyalty: nat)
    ensures var r := UserReward(d, rpvs, loyalty);
            && (r.Ok? <==>
                  && d.accRpvs <= rpvs && Earned(d, rpvs) <= MAX_U128
                  && d.claimed <= FixedMul(loyalty, Earned(d, rpvs)) <= Earned(d, rpvs))
            && (r.Ok? ==> r.value == (FixedMul(loyalty, Earned(d, rpvs)) - d.claimed,
                                      Earned(d, rpvs) - FixedMul(loyalty, Earned(d, rpvs))))
  {
    hide FixedMul;
  }

  lemma DoClaimIff(cfg: Config, s: State, key: Key, nft: NftId, who: nat, now: nat)
    requires Stored(s, key) && nft in s.deposits && s.pools[key].id != 0
    ensures var pool, d := s.pools[key], s.deposits[nft];
            var cur, pot := s.farms[key.0].currency, MiningPool(pool.id);
            var funds := Free(s.ledger, cur, pot);
            var r := DoClaim(cfg, s, key, nft, who, now);
            && (r.Ok? <==> ClaimFits(cfg, pool.curve, d, pool.accRpvs, funds, now))
            && (r.Ok? ==>
                  var (s', reward, forfeit) := r.value;
                  && reward == Payout(cfg, pool.curve, d, pool.accRpvs, funds, now)
                  && forfeit == Forfeit(cfg, pool.curve, d, pool.accRpvs, funds, now)
                  && Free(s'.ledger, cur, pot) == funds - reward
                  && s'.deposits[nft].shares == d.shares && s'.deposits[nft].valued == d.valued)
  {
    hide Free, Transfer, FixedMul, UserReward, LoyaltyMultiplier, LoyalShare, HasLoyalty, Earned;
    var pool, d := s.pools[key], s.deposits[nft];
    var cur, pot := s.farms[key.0].currency, MiningPool(pool.id);
    if d.enteredAt <= now && d.updatedAt != now {
      var loyalty := LoyaltyMultiplier(cfg, now - d.enteredAt, pool.curve);
      LoyaltyIs(cfg, pool.curve, now - d.enteredAt, if d.accRpvs <= pool.accRpvs then Earned(d, pool.accRpvs) else 0);
      if loyalty.Ok? {
        UserRewardIff(d, pool.accRpvs, loyalty.value);
        var r := UserReward(d, pool.accRpvs, loyalty.value);
        if r.Ok? && r.value.0 <= Free(s.ledger, cur, pot) {
          TransferMoves(s.ledger, cur, pot, User(who), r.value.0, cur, pot);
        }
      }
    }
  }

  lemma LeaveIff(s: State, key: Key, nft: NftId, forfeit: nat)
    requires Stored(s, key) && nft in s.deposits && key.0 != 0 && s.pools[key].id !in {0, key.0}
    ensures Leave(s, key, nft, forfeit).Ok? <==>
              && Counted(s.farms[key.0], s.pools[key], s.deposits[nft])
              && forfeit <= Free(s.ledger, s.farms[key.0].currency, MiningPool(s.pools[key].id))
  {
    hide Free, FixedMul;
  }

  lemma CanceledFunds(s: State, key: Key, now: nat)
    requires Ordered(s, key, now)
    ensures s.pools[key].canceled ==>
              FundsAfter(s, key, now) == Free(s.ledger, s.farms[key.0].currency, MiningPool(s.pools[key].id))
  {
    hide Draw, Free;
  }

  /** Counting depends on shares, valued shares, stake and multiplier alone. */
  lemma CountedSame(farm: Farm, farm': Farm, pool: Pool, pool': Pool, d: Stake)
    requires farm'.totalSharesZ == farm.totalSharesZ
    requires pool' == pool.(accRpz := pool'.accRpz, updatedAt := pool'.updatedAt)
    ensures Counted(farm', pool', d) <==> Counted(farm, pool, d)
  {
    hide FixedMul;
  }

  lemma CountedDeposit(farm: Farm, pool: Pool, d: Stake, d': Stake)
    requires d'.shares == d.shares && d'.valued == d.valued
    ensures Counted(farm, pool, d') <==> Counted(farm, pool, d)
  {
    hide FixedMul;
  }

  /** The pool's part of a withdrawal succeeds exactly when the numbers say so, whichever pool the deposit was made
      in. */
  lemma ExitIff(cfg: Config, s: State, key: Key, nft: NftId, who: nat, now: nat)
    requires Ordered(s, key, now) && nft in s.deposits && key.0 != 0 && s.pools[key].id !in {0, key.0}
    requires Period(s.block, s.farms[key.0].blocksPerPeriod) == Ok(now)
    ensures Exit(cfg, s, key, nft, who).Ok? <==> MayExit(cfg, s, key, nft, now)
  {
    hide Touch, DoClaim, Leave, Free, ClaimFits, Payout, Forfeit, Counted, Draw, RpvsAfter, Accrues, Period;
    TouchSucceedsIff(s, key, now);
    CanceledForecast(s, key, now);
    CanceledFunds(s, key, now);
    var r := if s.pools[key].canceled then Ok(s) else Touch(s, key, now);
    if r.Ok? {
      var s1 := r.value;
      if !s.pools[key].canceled { TouchBrings(s, key, now, s1); }
      DoClaimIff(cfg, s1, key, nft, who, now);
      CountedSame(s.farms[key.0], s1.farms[key.0], AccruedPool(s, key, now), s1.pools[key], s.deposits[nft]);
      var c := DoClaim(cfg, s1, key, nft, who, now);
      if c.Ok? {
        var (s2, reward, forfeit) := c.value;
        LeaveIff(s2, key, nft, forfeit);
        CountedDeposit(s2.farms[key.0], s2.pools[key], s.deposits[nft], s2.deposits[nft]);
      }
    }
  }

  /** A leaving deposit takes its shares, valued shares and stake out of the totals; what it forfeits goes from the
      pool's account to the farm's. */
  lemma LeaveExact(s: State, key: Key, nft: NftId, forfeit: nat, s': State)
    requires Stored(s, key) && nft in s.deposits && key.0 != 0 && s.pools[key].id !in {0, key.0}
    requires Leave(s, key, nft, forfeit) == Ok(s')
    ensures var farm, pool, d := s.farms[key.0], s.pools[key], s.deposits[nft];
            var stake := if pool.canceled then 0 else pool.multiplier * d.valued / FIXED_ONE;
            && d.shares <= pool.totalShares && d.valued <= pool.totalValued
            && stake <= pool.stake && stake <= farm.totalSharesZ
            && s'.pools == s.pools[key := pool.(totalShares := pool.totalShares - d.shares,
                                                totalValued := pool.totalValued - d.valued,
                                                stake := pool.stake - stake)]
            && s'.farms == s.farms[key.0 := farm.(totalSharesZ := farm.totalSharesZ - stake)]
            && Free(s'.ledger, farm.currency, MiningPool(pool.id)) ==
                 Free(s.ledger, farm.currency, MiningPool(pool.id)) - forfeit
            && Free(s'.ledger, farm.currency, MiningPool(key.0)) ==
                 Free(s.ledger, farm.currency, MiningPool(key.0)) + forfeit
  {
    hide Free, Transfer;
    var cur, id := s.farms[key.0].currency, s.pools[key].id;
    TransferMoves(s.ledger, cur, MiningPool(id), MiningPool(key.0), forfeit, cur, MiningPool(id));
    TransferMoves(s.ledger, cur, MiningPool(id), MiningPool(key.0), forfeit, cur, MiningPool(key.0));
  }

  lemma ClaimMoves(cfg: Config, s: State, key: Key, nft: NftId, who: nat, now: nat, s': State, reward: nat, rest: nat)
    requires Stored(s, key) && nft in s.deposits && key.0 != 0 && s.pools[key].id !in {0, key.0}
    requires DoClaim(cfg, s, key, nft, who, now) == Ok((s', reward, rest))
    ensures var cur := s.farms[key.0].currency;
            && Free(s'.ledger, cur, MiningPool(key.0)) == Free(s.ledger, cur, MiningPool(key.0))
            && Free(s'.ledger, cur, User(who)) == Free(s.ledger, cur, User(who)) + reward
    ensures s'.deposits[nft].shares == s.deposits[nft].shares && s'.deposits[nft].valued == s.deposits[nft].valued
  {
    hide Free, Transfer, UserReward, LoyaltyMultiplier;
    var cur, pot := s.farms[key.0].currency, MiningPool(s.pools[key].id);
    if s.deposits[nft].updatedAt != now {
      TransferMoves(s.ledger, cur, pot, User(who), reward, cur, MiningPool(key.0));
      TransferMoves(s.ledger, cur, pot, User(who), reward, cur, User(who));
    }
  }

  /** What the pool's part of a withdrawal does to the accounts: the owner gets what the deposit vests beyond earlier
      claims, the farm gets back what is forfeited, and the pool's account pays for both out of what it holds after
      accruing; nothing is left over or added elsewhere. */
  lemma ExitExact(cfg: Config, s: State, key: Key, nft: NftId, who: nat, now: nat, s': State)
    requires Ordered(s, key, now) && nft in s.deposits && key.0 != 0 && s.pools[key].id !in {0, key.0}
    requires Period(s.block, s.farms[key.0].blocksPerPeriod) == Ok(now) && Exit(cfg, s, key, nft, who) == Ok(s')
    ensures MayExit(cfg, s, key, nft, now)
    ensures var cur, id, funds := s.farms[key.0].currency, s.pools[key].id, FundsAfter(s, key, now);
            var pool, d := AccruedPool(s, key, now), s.deposits[nft];
            var reward := Payout(cfg, pool.curve, d, pool.accRpvs, funds, now);
            var forfeit := Forfeit(cfg, pool.curve, d, pool.accRpvs, funds, now);
            && Free(s'.ledger, cur, User(who)) == Free(s.ledger, cur, User(who)) + reward
            && Free(s'.ledger, cur, MiningPool(id)) == funds - reward - forfeit
            && Free(s'.ledger, cur, MiningPool(key.0)) + funds ==
                 Free(s.ledger, cur, MiningPool(key.0)) + Free(s.ledger, cur, MiningPool(id)) + forfeit
            && key in s'.pools && s'.pools[key].totalShares + d.shares == s.pools[key].totalShares
            && s'.pools[key].totalValued + d.valued == s.pools[key].totalValued
  {
    hide Touch, DoClaim, Leave, Free, ClaimFits, Payout, Forfeit, Counted, Draw, RpvsAfter, Accrues, Period;
    ExitIff(cfg, s, key, nft, who, now);
    CanceledForecast(s, key, now);
    CanceledFunds(s, key, now);
    var s1 := if s.pools[key].canceled then s else Touch(s, key, now).value;
    if !s.pools[key].canceled {
      TouchBrings(s, key, now, s1);
      TouchSparesUsers(s, key, now, s1, s.farms[key.0].currency, User(who));
    }
    DoClaimIff(cfg, s1, key, nft, who, now);
    var (s2, reward, forfeit) := DoClaim(cfg, s1, key, nft, who, now).value;
    ClaimMoves(cfg, s1, key, nft, who, now, s2, reward, forfeit);
    LeaveExact(s2, key, nft, forfeit, s');
    LeaveSpares(s2, key, nft, forfeit, s', s.farms[key.0].currency, who);
  }

  lemma LeaveSpares(s: State, key: Key, nft: NftId, forfeit: nat, s': State, a: AssetId, who: nat)
    requires Stored(s, key) && nft in s.deposits && Leave(s, key, nft, forfeit) == Ok(s')
    ensures Free(s'.ledger, a, User(who)) == Free(s.ledger, a, User(who))
  {
    hide Free, Supply, Leave;
    LeaveWithin(s, key, nft, forfeit, s', who);
  }

  /** A withdrawal through a stored pool succeeds exactly when the pool's part does, the metadata counts a deposit, and
      the pallet holds its LP shares while their AMM exists. Nothing is asked of the storage but the order of clocks and
      accumulators: the deposit may be stale. */
  lemma WithdrawIff(cfg: Config, s: State, who: nat, nft: NftId, now: nat)
    requires nft in s.owners && s.owners[nft] == who && nft in s.deposits
    requires DecodePool(nft).Some? && DecodePool(nft).value in s.meta
    requires var key := KeyOf(s.meta[DecodePool(nft).value]);
             && Ordered(s, key, now) && key.0 != 0 && s.pools[key].id !in {0, key.0}
             && Period(s.block, s.farms[key.0].blocksPerPeriod) == Ok(now)
    ensures var m := s.meta[DecodePool(nft).value];
            WithdrawShares(cfg, s, who, nft).Ok? <==>
              && MayExit(cfg, s, KeyOf(m), nft, now)
              && m.count > 0
              && (AmmOf(m.pair) in s.amms ==>
                    s.deposits[nft].shares <= Free(s.ledger, cfg.shareToken(AmmOf(m.pair)), MiningPallet))
  {
    hide Exit, DecodePool, MayExit, Free, Transfer, Within, MetaAfterExit, Period;
    var m := s.meta[DecodePool(nft).value];
    ExitIff(cfg, s, KeyOf(m), nft, who, now);
    var r := Exit(cfg, s, KeyOf(m), nft, who);
    if r.Ok? {
      var reward := ExitFlow(cfg, s, KeyOf(m), nft, who, r.value);
    }
  }

  // A stale deposit, from the scene of the short farm: its pool is canceled, removed and added again.

  function Canceled(): State { Step(Parameters(), FirstJoined(), Cancel(1, 1, AssetPair(1, 2))) }
  function Removed(): State { Step(Parameters(), Canceled(), RemovePool(1, 1, AssetPair(1, 2))) }
  function AddedAgain(): Result<State, Error> {
    AddLiquidityPool(Removed(), 1, 1, AssetPair(1, 2), FIXED_ONE, None)
  }

  lemma CurrentPoolIdle(s: State, key: Key, now: nat)
    requires Stored(s, key) && s.pools[key].updatedAt == now
    ensures Touch(s, key, now) == Ok(s)
  {
    var u := Accrual(s.farms[key.0], s.pools[key], s.ledger, 0, 0);
    assert s.farms[key.0 := u.farm] == s.farms && s.pools[key := u.pool] == s.pools;
    assert s.audit[key.0 := AuditAfter(s.audit[key.0], 0, 0)] == s.audit;
  }

  lemma CancelCurrent(s: State)
    requires Stored(s, FIRST) && s.block == 0
    requires s.farms[1] == FarmAt(0, 100, 0, 0, 1) && s.pools[FIRST] == PoolAt(2, 0, 100)
    ensures var pool := PoolAt(2, 0, 100).(stake := 0, multiplier := 0, canceled := true);
            CancelLiquidityPool(s, 1, 1, AssetPair(1, 2)) == Ok(Restaked(s, FIRST, 0, pool))
  {
    assert s.block / 1 == 0;
    CurrentPoolIdle(s, FIRST, 0);
    hide Touch, Restaked;
  }

  lemma CanceledIs()
    ensures Stored(FirstJoined(), FIRST)
    ensures var pool := PoolAt(2, 0, 100).(stake := 0, multiplier := 0, canceled := true);
            Canceled() == Restaked(FirstJoined(), FIRST, 0, pool)
  {
    FirstLooks();
    hide Reachable, Free, FirstJoined, EncodeId, Restaked;
    CancelCurrent(FirstJoined());
    hide CancelLiquidityPool, Looks, FarmAt;
  }

  /** The scene with its pool canceled. */
  predicate LooksCanceled(s: State) {
    && s.farms == map[1 := FarmAt(0, 0, 0, 0, 1)] && s.audit.Keys == {1} && s.meta == map[2 := FIRST_META]
    && FIRST in s.pools && s.pools[FIRST].canceled && s.pools[FIRST].id == 2 && s.pools.Keys == {FIRST}
    && s.poolSeq == 2 && s.block == 0 && FIRST_AMM in s.amms
  }

  lemma RestakedLooks(s: State, pool: Pool)
    requires Looks(s, FarmAt(0, 100, 0, 0, 1), map[FIRST := PoolAt(2, 0, 100)], map[2 := FIRST_META], 2, 1, 0)
    requires pool.canceled && pool.id == 2
    ensures LooksCanceled(Restaked(s, FIRST, 0, pool)) && Restaked(s, FIRST, 0, pool).deposits == s.deposits
  {
    hide Free;
    assert map[1 := FarmAt(0, 100, 0, 0, 1)][1 := FarmAt(0, 0, 0, 0, 1)] == map[1 := FarmAt(0, 0, 0, 0, 1)];
  }

  lemma CanceledReachable()
    ensures Reachable(Parameters(), Canceled())
  {
    FirstLooks();
    hide Reachable, FirstJoined, Step, Looks;
    ReachableStep(Parameters(), FirstJoined(), Cancel(1, 1, AssetPair(1, 2)));
  }

  lemma CanceledLooks()
    ensures LooksCanceled(Canceled()) && Canceled().deposits == FirstJoined().deposits
  {
    FirstLooks();
    CanceledIs();
    hide Reachable, FirstJoined, Canceled, Looks, LooksCanceled, Restaked, EncodeId;
    RestakedLooks(FirstJoined(), PoolAt(2, 0, 100).(stake := 0, multiplier := 0, canceled := true));
  }

  lemma RemovedLooks()
    ensures Reachable(Parameters(), Removed())
    ensures var s := Removed();
            && s.farms == map[1 := FarmAt(0, 0, 0, 0, 0)] && s.audit.Keys == {1} && s.meta == map[2 := FIRST_META]
            && s.pools == map[] && s.poolSeq == 2 && s.block == 0 && FIRST_AMM in s.amms
            && s.deposits == FirstJoined().deposits
  {
    CanceledReachable();
    CanceledLooks();
    hide Reachable, Free, Canceled, FirstJoined, Transfer;
    var s := Canceled();
    ReachableStep(Parameters(), s, RemovePool(1, 1, AssetPair(1, 2)));
    var r := RemoveLiquidityPool(s, 1, 1, AssetPair(1, 2));
    assert s.farms[1] == FarmAt(0, 0, 0, 0, 1);
    assert r.Ok? by {
      var cur := s.farms[1].currency;
      assert Transfer(s.ledger, cur, MiningPool(2), MiningPool(1), Free(s.ledger, cur, MiningPool(2))).Some?;
    }
    assert s.farms[1 := FarmAt(0, 0, 0, 0, 0)] == map[1 := FarmAt(0, 0, 0, 0, 0)];
    assert s.pools - {FIRST} == map[];
  }

  lemma FirstDeposit()
    ensures EncodeId(2, 1) in FirstJoined().deposits && FirstJoined().deposits[EncodeId(2, 1)].shares == 100
  {
    FirstAddedLooks();
    hide Reachable, EncodeId, Free, Looks, Step, FirstAdded;
    var pair := AssetPair(1, 2);
    JoinStep(FirstAdded(), FarmAt(0, 0, 0, 0, 1), map[FIRST := PoolAt(2, 0, 0)], map[2 := Meta(pair, 0, 1)],
             2, 0, 0, pair, 2, 2, 100, EncodeId(2, 1), 3);
  }

  lemma AddableAgain()
    ensures AddedAgain().Ok?
  {
    RemovedLooks();
    hide Reachable, Removed, FirstJoined;
    assert Removed().block / 1 == 0 && Removed().farms[1] == FarmAt(0, 0, 0, 0, 0);
  }

  /** The pair can be added again, and then nobody can withdraw the deposit that was there before. */
  lemma StaleDepositExample(who: nat)
    ensures Lawful(Parameters()) && Reachable(Parameters(), Removed())
    ensures EncodeId(2, 1) in Removed().deposits && AddedAgain().Ok?
    ensures WithdrawShares(Parameters(), AddedAgain().value, who, EncodeId(2, 1)).Err?
  {
    FirstLooks();
    FirstDeposit();
    RemovedLooks();
    IdRoundTrip(2, 1);
    ReachableInv(Parameters(), Removed());
    AddableAgain();
    hide Reachable, Removed, EncodeId, DecodePool, FirstJoined, Inv, AddLiquidityPool, WithdrawShares, Looks, Free;
    StaleDepositStuck(Parameters(), Removed(), 1, 1, AssetPair(1, 2), FIXED_ONE, None, AddedAgain().value,
                      EncodeId(2, 1), who);
  }
}
