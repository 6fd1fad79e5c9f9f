/** Every successful call keeps the invariant. */
module MiningCalls {
  import opened Basics
  import opened Rounding
  import opened Ledgers
  import opened NftIds
  import opened Mining
  import opened MiningPools
  import opened MiningInvariant
  import opened MiningAccrual
  import opened MiningSteps
  import opened MiningExits
  import opened MiningLifecycle

  lemma PlanFits(total: nat, planned: nat)
    requires planned > 0
    ensures Budget(planned, total / planned) <= total
  {
    BudgetIsProduct(planned, total / planned);
    FloorBounds(total, planned);
  }

  lemma NewFarmPaced(farm: Farm, a: Audit, now: nat)
    requires farm.accRewards == 0 && farm.paidRewards == 0 && farm.updatedAt == now
    requires a == Audit(now, a.totalRewards, 0, 0)
    requires farm.plannedPeriods > 0 && farm.maxReward == a.totalRewards / farm.plannedPeriods
    ensures PacingOK(farm, a, now)
  {
    PlanFits(a.totalRewards, farm.plannedPeriods);
  }

  lemma CreateFarmKeeps(cfg: Config, s: State, totalRewards: nat, planned: nat, blocksPerPeriod: nat,
                        incentivized: AssetId, currency: AssetId, owner: nat, yieldPerMillion: nat, s': State)
    requires Inv(cfg, s)
    requires CreateFarm(cfg, s, totalRewards, planned, blocksPerPeriod, incentivized, currency, owner, yieldPerMillion)
             == Ok(s')
    ensures Inv(cfg, s')
  {
    hide PacingOK, Elapsed, Inv;
    var id := s.poolSeq + 1;
    ElapsedIsPeriod(s.block, blocksPerPeriod);
    NewFarmPaced(s'.farms[id], s'.audit[id], Elapsed(s.block, blocksPerPeriod));
    CreateKeepsInv(cfg, s, id, s'.farms[id], s'.audit[id], s'.ledger);
  }

  lemma DestroyFarmKeeps(cfg: Config, s: State, who: nat, farmId: PoolId, s': State)
    requires Inv(cfg, s) && DestroyFarm(s, who, farmId) == Ok(s')
    ensures Inv(cfg, s')
  {
    hide Inv;
    DestroyKeepsInv(cfg, s, farmId);
  }

  lemma WithdrawUndistributedKeeps(cfg: Config, s: State, who: nat, farmId: PoolId, s': State)
    requires Inv(cfg, s) && WithdrawUndistributed(s, who, farmId) == Ok(s')
    ensures Inv(cfg, s')
  {
    hide FarmsOK, PoolsOK, NftsOK;
    forall k | k in s.pools
      ensures s.pools[k].id != farmId
    {
      IdsDistinct(s, k, k);
    }
    EnvironmentKeepsInv(cfg, s, s');
  }

  /** The clock a call reads is the clock of the invariant. */
  lemma Clocked(cfg: Config, s: State, f: PoolId)
    requires Inv(cfg, s) && f in s.farms
    ensures f in s.audit && s.farms[f].blocksPerPeriod > 0
    ensures Period(s.block, s.farms[f].blocksPerPeriod) == Ok(Now(s, f))
  {
    hide PoolsOK, StructureOK;
    assert FarmInv(s, f);
    ElapsedIsPeriod(s.block, s.farms[f].blocksPerPeriod);
  }

  lemma AddLiquidityPoolKeeps(cfg: Config, s: State, who: nat, farmId: PoolId, pair: AssetPair, multiplier: nat,
                              curve: Option<Curve>, s': State)
    requires Inv(cfg, s) && NoStale(s.meta, (farmId, AmmOf(pair)))
    requires AddLiquidityPool(s, who, farmId, pair, multiplier, curve) == Ok(s')
    ensures Inv(cfg, s')
  {
    hide Inv, NoStale, Period, Elapsed, TouchFarm;
    Clocked(cfg, s, farmId);
    var s1 := TouchFarm(s, farmId, Now(s, farmId)).value;
    TouchFarmKeeps(cfg, s, farmId, Now(s, farmId), s1);
    AddKeepsInv(cfg, s1, (farmId, AmmOf(pair)), pair, NewPool(s.poolSeq + 1, Now(s, farmId), curve, multiplier));
  }

  lemma UpdateLiquidityPoolKeeps(cfg: Config, s: State, who: nat, farmId: PoolId, pair: AssetPair, multiplier: nat,
                                 s': State)
    requires Inv(cfg, s) && UpdateLiquidityPool(s, who, farmId, pair, multiplier) == Ok(s')
    ensures Inv(cfg, s')
  {
    hide Inv, Period, Elapsed, Touch, FixedMul, Restaked, PoolInv;
    var key := (farmId, AmmOf(pair));
    Clocked(cfg, s, farmId);
    var s1 := Touch(s, key, Now(s, farmId)).value;
    TouchKeeps(cfg, s, key, Now(s, farmId), s1);
    PoolBounds(cfg, s1, key);
    StakeWithinTotal(cfg, s1, key);
    var pool := s1.pools[key];
    var stake := FixedMul(multiplier, pool.totalValued);
    RestakeKeepsInv(cfg, s1, key, s1.farms[farmId].totalSharesZ - pool.stake + stake,
                    pool.(stake := stake, multiplier := multiplier));
  }

  lemma CancelLiquidityPoolKeeps(cfg: Config, s: State, who: nat, farmId: PoolId, pair: AssetPair, s': State)
    requires Inv(cfg, s) && CancelLiquidityPool(s, who, farmId, pair) == Ok(s')
    ensures Inv(cfg, s')
  {
    hide Inv, Period, Elapsed, Touch, FixedMul, Restaked, PoolInv;
    var key := (farmId, AmmOf(pair));
    Clocked(cfg, s, farmId);
    var s1 := Touch(s, key, Now(s, farmId)).value;
    TouchKeeps(cfg, s, key, Now(s, farmId), s1);
    PoolBounds(cfg, s1, key);
    var pool := s1.pools[key];
    RestakeKeepsInv(cfg, s1, key, s1.farms[farmId].totalSharesZ - pool.stake,
                    pool.(stake := 0, multiplier := 0, canceled := true));
  }

  lemma ResumeLiquidityPoolKeeps(cfg: Config, s: State, who: nat, farmId: PoolId, pair: AssetPair, multiplier: nat,
                                 s': State)
    requires Inv(cfg, s) && ResumeLiquidityPool(s, who, farmId, pair, multiplier) == Ok(s')
    ensures Inv(cfg, s')
  {
    hide Inv, Period, Elapsed, TouchFarm, FixedMul, Restaked, PoolInv;
    var key := (farmId, AmmOf(pair));
    Clocked(cfg, s, farmId);
    var s1 := TouchFarm(s, farmId, Now(s, farmId)).value;
    TouchFarmKeeps(cfg, s, farmId, Now(s, farmId), s1);
    PoolBounds(cfg, s1, key);
    var pool := s1.pools[key];
    var stake := FixedMul(multiplier, pool.totalValued);
    RestakeKeepsInv(cfg, s1, key, s1.farms[farmId].totalSharesZ + stake,
                    pool.(accRpz := s1.farms[farmId].accRpz, updatedAt := Now(s, farmId),
                          stake := stake, canceled := false, multiplier := multiplier));
  }

  lemma PoolBounds(cfg: Config, s: State, key: Key)
    requires Inv(cfg, s) && Stored(s, key) && s.farms[key.0].blocksPerPeriod > 0
    ensures s.pools[key].accRpz <= s.farms[key.0].accRpz && s.pools[key].updatedAt <= Now(s, key.0)
    ensures s.pools[key].canceled ==> s.pools[key].stake == 0
    ensures s.pools[key].id != 0 && key.0 != 0 && s.pools[key].id in s.meta && s.pools[key].id != key.0
  {
    hide FarmsOK, TotalsOK, Solvent, DepositsOK, Total, Elapsed;
    IdsDistinct(s, key, key);
    assert PoolInv(cfg, s, key);
  }

  lemma RemoveLiquidityPoolKeeps(cfg: Config, s: State, who: nat, farmId: PoolId, pair: AssetPair, s': State)
    requires Inv(cfg, s) && RemoveLiquidityPool(s, who, farmId, pair) == Ok(s')
    ensures Inv(cfg, s')
  {
    hide Inv;
    RemoveKeepsInv(cfg, s, (farmId, AmmOf(pair)), s'.ledger);
  }

  /** A canceled pool can always be removed by the farm's owner, and no other pool by anybody. */
  lemma RemovePoolSucceedsIff(cfg: Config, s: State, who: nat, farmId: PoolId, pair: AssetPair)
    requires Inv(cfg, s)
    ensures RemoveLiquidityPool(s, who, farmId, pair).Ok? <==>
              var key := (farmId, AmmOf(pair));
              key in s.pools && s.pools[key].canceled && farmId in s.farms && who == s.farms[farmId].owner
  {
    hide FarmsOK, PoolsOK, WithoutPool;
    var key := (farmId, AmmOf(pair));
    if key in s.pools && farmId in s.farms {
      LivePoolCounted(cfg, s, key);
      IdsDistinct(s, key, key);
    }
  }

  lemma EnterShape(s: State, key: Key, who: nat, token: AssetId, amount: nat, now: nat, s': State)
    requires Stored(s, key) && !s.pools[key].canceled && Enter(s, key, who, token, amount, now) == Ok(s')
    ensures s.pools[key].id in s.meta
    ensures var nft := EncodeId(s.pools[key].id, s.nftSeq + 1);
            && nft in s'.deposits
            && var d := s'.deposits[nft];
               Entered(s, key, nft, d, FixedMul(s.pools[key].multiplier, d.valued), token, who, now, s')
  {
    hide FixedMul, EncodeId;
  }

  lemma DepositSharesKeeps(cfg: Config, s: State, who: nat, farmId: PoolId, pair: AssetPair, amount: nat, s': State)
    requires Inv(cfg, s) && DepositShares(cfg, s, who, farmId, pair, amount) == Ok(s')
    ensures Inv(cfg, s')
  {
    hide Inv, Period, Elapsed, Touch, FixedMul, EncodeId, PoolInv, Enter, Entered;
    var key, token := (farmId, AmmOf(pair)), ShareToken(cfg, s, pair);
    Clocked(cfg, s, farmId);
    var now := Now(s, farmId);
    var s1 := Touch(s, key, now).value;
    TouchKeeps(cfg, s, key, now, s1);
    EnterShape(s1, key, who, token, amount, now, s');
    var nft := EncodeId(s1.pools[key].id, s1.nftSeq + 1);
    var d := s'.deposits[nft];
    EntryKeepsInv(cfg, s1, key, nft, d, FixedMul(s1.pools[key].multiplier, d.valued), token, who, now, s');
  }

  /** A live deposit's metadata leads to its own pool, if that is stored. */
  lemma DepositLinked(s: State, nft: NftId)
    requires StructureOK(s) && nft in s.deposits
    ensures DecodePool(nft).Some? && DecodePool(nft).value in s.meta && nft in s.owners
    ensures var id := DecodePool(nft).value;
            && s.meta[id].count > 0
            && (KeyOf(s.meta[id]) in s.pools ==>
                  s.pools[KeyOf(s.meta[id])].id == id && s.meta[id].farm in s.farms && s.meta[id].farm in s.audit)
  {
    hide DecodePool;
    assert NftOK(nft, s.meta.Keys, s.nftSeq);
    var id := DecodePool(nft).value;
    assert CountOK(s.deposits.Keys, s.meta, id, s.pools.Keys) && Linked(Ids(s.pools), s.meta, id);
    assert nft in NftsOf(s.deposits.Keys, id);
    if KeyOf(s.meta[id]) in s.pools {
      IdsDistinct(s, KeyOf(s.meta[id]), KeyOf(s.meta[id]));
    }
  }

  lemma DepositSound(cfg: Config, s: State, key: Key, nft: NftId)
    requires Inv(cfg, s) && Stored(s, key) && s.farms[key.0].blocksPerPeriod > 0
    requires nft in s.deposits && DecodePool(nft) == Some(s.pools[key].id)
    ensures DepositOK(cfg, s.pools[key].curve, s.pools[key].accRpvs, s.deposits[nft], Now(s, key.0))
  {
    hide FarmsOK, TotalsOK, StakeOK, Solvent, Total, Elapsed, DecodePool, Vested;
    assert PoolInv(cfg, s, key);
    var v := ViewOf(s, key);
    assert v.deps[nft] == s.deposits[nft];
    assert DepositOK(cfg, v.pool.curve, v.pool.accRpvs, v.deps[nft], Now(s, key.0));
  }

  /** Claiming, from a state that has just accrued. */
  lemma DoClaimKeeps(cfg: Config, s: State, key: Key, nft: NftId, who: nat, now: nat, s': State, reward: nat,
                     unclaimable: nat)
    requires Lawful(cfg) && Inv(cfg, s) && Stored(s, key) && nft in s.deposits
    requires s.farms[key.0].blocksPerPeriod > 0 && now == Now(s, key.0)
    requires DecodePool(nft) == Some(s.pools[key].id)
    requires DoClaim(cfg, s, key, nft, who, now) == Ok((s', reward, unclaimable))
    ensures Inv(cfg, s')
    ensures s' == s.(deposits := s'.deposits, ledger := s'.ledger) && s'.deposits.Keys == s.deposits.Keys
    ensures unclaimable <= OwedFn(s.pools[key].accRpvs)(s'.deposits[nft])
    ensures s'.deposits[nft].shares == s.deposits[nft].shares
  {
    hide Inv, Elapsed, DecodePool, LoyaltyMultiplier, UserReward, OwedFn, DepositOK, PoolInv;
    DepositSound(cfg, s, key, nft);
    if s.deposits[nft].updatedAt == now {
      OwedNonNegative(cfg, s.pools[key].curve, s.pools[key].accRpvs, s.deposits[nft], now);
    } else {
      ClaimShape(cfg, s, key, nft, who, now, s', reward, unclaimable);
      ClaimKeepsInv(cfg, s, key, nft, who, now, s', reward);
    }
  }

  lemma ClaimRewardsKeeps(cfg: Config, s: State, who: nat, nft: NftId, s': State)
    requires Lawful(cfg) && Inv(cfg, s) && ClaimRewards(cfg, s, who, nft) == Ok(s')
    ensures Inv(cfg, s')
  {
    hide Elapsed, DecodePool, Period, Touch, DoClaim, FarmsOK, PoolsOK, StructureOK;
    DepositLinked(s, nft);
    var key := KeyOf(s.meta[DecodePool(nft).value]);
    Clocked(cfg, s, key.0);
    var now := Now(s, key.0);
    var s1 := Touch(s, key, now).value;
    TouchKeeps(cfg, s, key, now, s1);
    var (s2, reward, unclaimable) := DoClaim(cfg, s1, key, nft, who, now).value;
    DoClaimKeeps(cfg, s1, key, nft, who, now, s2, reward, unclaimable);
  }

  lemma LpReturn(l: Ledger, token: AssetId, who: nat, shares: nat, l': Ledger)
    requires l' == l || Transfer(l, token, MiningPallet, User(who), shares) == Some(l')
    ensures Returned(l, l')
  {
  }

  /** What `Exit` and the end of a withdrawal do together. */
  lemma ExitLeaves(cfg: Config, s2: State, key: Key, nft: NftId, unclaimable: nat, s3: State, s': State)
    requires Stored(s2, key) && nft in s2.deposits && s2.pools[key].id in s2.meta && s2.meta[s2.pools[key].id].count > 0
    requires key.0 != 0 && s2.pools[key].id != 0 && KeyOf(s2.meta[s2.pools[key].id]) == key
    requires s2.pools[key].canceled ==> s2.pools[key].stake == 0
    requires Leave(s2, key, nft, unclaimable) == Ok(s3)
    requires unclaimable <= OwedFn(s2.pools[key].accRpvs)(s2.deposits[nft])
    requires s' == s3.(deposits := s3.deposits - {nft}, owners := s3.owners - {nft},
                       meta := MetaAfterExit(s2.meta, s2.pools[key].id, true), ledger := s'.ledger)
    requires Returned(s3.ledger, s'.ledger)
    ensures var stake := if s2.pools[key].canceled then 0 else StakeFn(s2.pools[key].multiplier)(s2.deposits[nft]);
            Left(s2, key, nft, stake, unclaimable, s3.ledger, s')
  {
    hide OwedFn, MetaAfterExit, FixedMul;
  }

  lemma WithdrawStoredKeeps(cfg: Config, s: State, who: nat, nft: NftId, key: Key, s': State)
    requires Lawful(cfg) && Inv(cfg, s) && nft in s.deposits && Stored(s, key)
    requires DecodePool(nft) == Some(s.pools[key].id) && s.pools[key].id in s.meta
    requires KeyOf(s.meta[s.pools[key].id]) == key && s.meta[s.pools[key].id].count > 0
    requires Exit(cfg, s, key, nft, who).Ok?
    requires var s3 := Exit(cfg, s, key, nft, who).value;
             && s' == s3.(deposits := s3.deposits - {nft}, owners := s3.owners - {nft},
                          meta := MetaAfterExit(s.meta, s.pools[key].id, true), ledger := s'.ledger)
             && Returned(s3.ledger, s'.ledger)
    ensures Inv(cfg, s')
  {
    hide Inv, Elapsed, DecodePool, Period, Touch, DoClaim, Leave, Returned, MetaAfterExit, OwedFn, FixedMul, PoolInv,
         Left;
    Clocked(cfg, s, key.0);
    var now := Now(s, key.0);
    var s1 := if s.pools[key].canceled then s else Touch(s, key, now).value;
    if !s.pools[key].canceled { TouchKeeps(cfg, s, key, now, s1); }
    var (s2, reward, unclaimable) := DoClaim(cfg, s1, key, nft, who, now).value;
    DoClaimKeeps(cfg, s1, key, nft, who, now, s2, reward, unclaimable);
    var s3 := Leave(s2, key, nft, unclaimable).value;
    PoolBounds(cfg, s2, key);
    ExitLeaves(cfg, s2, key, nft, unclaimable, s3, s');
    var stake := if s2.pools[key].canceled then 0 else StakeFn(s2.pools[key].multiplier)(s2.deposits[nft]);
    LeftKeepsInv(cfg, s2, key, nft, stake, unclaimable, s3.ledger, s');
  }

  lemma WithdrawSharesKeeps(cfg: Config, s: State, who: nat, nft: NftId, s': State)
    requires Lawful(cfg) && Inv(cfg, s) && WithdrawShares(cfg, s, who, nft) == Ok(s')
    ensures Inv(cfg, s')
  {
    hide Elapsed, DecodePool, Exit, FarmsOK, PoolsOK, StructureOK, MetaAfterExit;
    DepositLinked(s, nft);
    var id := DecodePool(nft).value;
    var m := s.meta[id];
    var key := KeyOf(m);
    var l := if key in s.pools then Exit(cfg, s, key, nft, who).value.ledger else s.ledger;
    LpReturn(l, cfg.shareToken(AmmOf(m.pair)), who, s.deposits[nft].shares, s'.ledger);
    if key in s.pools {
      WithdrawStoredKeeps(cfg, s, who, nft, key, s');
    } else {
      OrphanKeepsInv(cfg, s, nft, id, s');
    }
  }
}
