/** Farms and pools coming, changing stake and going keep the invariant. */
module MiningLifecycle {
  import opened Basics
  import opened Sums
  import opened Ledgers
  import opened NftIds
  import opened Mining
  import opened MiningPools
  import opened MiningInvariant
  import opened MiningSteps

  // New multiplier, cancel, resume.

  /** The pool's stake is recomputed from its total valued shares, or dropped. */
  ghost predicate Restakes(s: State, key: Key, pool: Pool, now: nat)
    requires Stored(s, key)
  {
    var old_ := s.pools[key];
    && pool == old_.(accRpz := pool.accRpz, updatedAt := pool.updatedAt, stake := pool.stake,
                     multiplier := pool.multiplier, canceled := pool.canceled)
    && pool.accRpz <= s.farms[key.0].accRpz
    && pool.updatedAt <= now
    && pool.stake == (if pool.canceled then 0 else FixedMul(pool.multiplier, pool.totalValued))
    && pool.stake <= MAX_U128
  }

  lemma RestakedPool(cfg: Config, s: State, key: Key, total: nat, pool: Pool)
    requires Stored(s, key) && PoolInv(cfg, s, key) && Restakes(s, key, pool, Now(s, key.0))
    ensures PoolInv(cfg, Restaked(s, key, total, pool), key)
  {
    hide FixedMul, StakeFn, Elapsed, DepositsOf, DepositsOK, Solvent, Total;
    var v := ViewOf(s, key);
    var v' := v.(pool := pool, slack := |v.deps|);
    StakeRounding(v.deps, pool.multiplier);
    DriftKeeps(cfg, v, v', Now(s, key.0), Now(s, key.0));
  }

  lemma RestakeKeepsInv(cfg: Config, s: State, key: Key, total: nat, pool: Pool)
    requires Inv(cfg, s) && Stored(s, key) && s.farms[key.0].blocksPerPeriod > 0
    requires Restakes(s, key, pool, Now(s, key.0))
    requires total == s.farms[key.0].totalSharesZ - s.pools[key].stake + pool.stake
    ensures Inv(cfg, Restaked(s, key, total, pool))
  {
    hide FixedMul, Elapsed, PoolOK, FarmInv, LinksOK, NftsOK, DepositsOf;
    var s' := Restaked(s, key, total, pool);
    IdsDistinct(s, key, key);
    assert PoolInv(cfg, s, key);
    RestakedPool(cfg, s, key, total, pool);
    assert Ids(s'.pools) == Ids(s.pools) && s'.pools.Keys == s.pools.Keys && s'.farms.Keys == s.farms.Keys;
    assert s'.rounding.Keys == s.rounding.Keys;
    OtherPools(cfg, s, s', key);
    FarmsAfterRestake(s, s', key, total, pool);
  }

  // Adding a pool.

  /** No metadata of an earlier pool for the same farm and AMM is left, so no deposit of one is either. */
  predicate NoStale(meta: map<PoolId, Meta>, key: Key) {
    forall p :: p in meta ==> KeyOf(meta[p]) != key
  }

  lemma EmptyTotals(f: Stake -> int)
    ensures Total(map[], f) == 0
  {
    assert Weigh(map[], f) == map[];
  }

  lemma NewPoolInv(cfg: Config, s: State, key: Key, pair: AssetPair, pool: Pool)
    requires StructureOK(s) && key.0 in s.farms && s.farms[key.0].blocksPerPeriod > 0
    requires pool == NewPool(s.poolSeq + 1, Now(s, key.0), pool.curve, pool.multiplier)
    ensures PoolInv(cfg, WithPool(s, key, pair, pool), key)
  {
    hide Elapsed, DecodePool, Total;
    var s' := WithPool(s, key, pair, pool);
    forall n | n in s.deposits
      ensures DecodePool(n) != Some(pool.id)
    {
      assert NftOK(n, s.meta.Keys, s.nftSeq);
    }
    assert DepositsOf(s'.deposits, pool.id) == map[];
    EmptyTotals(SharesFn());
    EmptyTotals(ValuedFn());
    EmptyTotals(StakeFn(pool.multiplier));
    EmptyTotals(OwedFn(0));
  }

  lemma LinksAfterAdd(ids: map<Key, PoolId>, meta: map<PoolId, Meta>, farms: set<PoolId>, key: Key, id: PoolId,
                      pair: AssetPair)
    requires LinksOK(ids, meta, farms) && key.0 in farms && key == (key.0, AmmOf(pair))
    requires id !in meta && NoStale(meta, key)
    ensures LinksOK(ids[key := id], meta[id := Meta(pair, 0, key.0)], farms)
  {
    var ids', meta' := ids[key := id], meta[id := Meta(pair, 0, key.0)];
    forall p | p in meta'
      ensures Linked(ids', meta', p)
    {
      assert p != id ==> Linked(ids, meta, p);
    }
  }

  lemma NftsAfterAdd(nfts: set<NftId>, owners: set<NftId>, meta: map<PoolId, Meta>, nftSeq: nat, stored: set<Key>,
                     key: Key, id: PoolId, pair: AssetPair)
    requires NftsOK(nfts, owners, meta, nftSeq, stored) && id !in meta && key == (key.0, AmmOf(pair))
    ensures NftsOK(nfts, owners, meta[id := Meta(pair, 0, key.0)], nftSeq, stored + {key})
  {
    hide DecodePool;
    var meta' := meta[id := Meta(pair, 0, key.0)];
    forall n | n in nfts
      ensures NftOK(n, meta'.Keys, nftSeq) && DecodePool(n) != Some(id)
    {
      assert NftOK(n, meta.Keys, nftSeq);
    }
    assert NftsOf(nfts, id) == {};
    forall p | p in meta'
      ensures CountOK(nfts, meta', p, stored + {key})
    {
      assert p != id ==> CountOK(nfts, meta, p, stored);
    }
  }

  lemma NewPoolStructure(s: State, key: Key, pair: AssetPair, pool: Pool)
    requires StructureOK(s) && key.0 in s.farms && key !in s.pools && key == (key.0, AmmOf(pair))
    requires pool.id == s.poolSeq + 1 <= MAX_U32 && NoStale(s.meta, key)
    ensures StructureOK(WithPool(s, key, pair, pool))
  {
    hide LinksOK, NftsOK, NoStale;
    var s' := WithPool(s, key, pair, pool);
    LinksAfterAdd(Ids(s.pools), s.meta, s.farms.Keys, key, pool.id, pair);
    NftsAfterAdd(s.deposits.Keys, s.owners.Keys, s.meta, s.nftSeq, s.pools.Keys, key, pool.id, pair);
    assert s'.farms.Keys == s.farms.Keys && s'.pools.Keys == s.pools.Keys + {key};
    assert Ids(s'.pools) == Ids(s.pools)[key := pool.id];
    assert s'.meta.Keys == s.meta.Keys + {pool.id} && s'.rounding.Keys == s.rounding.Keys + {pool.id};
  }

  lemma StakesOnAdd(pools: map<Key, Pool>, key: Key, pool: Pool, f: PoolId)
    requires key !in pools && pool.stake == 0
    ensures f != key.0 ==> StakesIn(pools[key := pool], f) == StakesIn(pools, f)
    ensures f == key.0 ==> Sum(StakesIn(pools[key := pool], f)) == Sum(StakesIn(pools, f))
    ensures f == key.0 ==> |StakesIn(pools[key := pool], f)| == |StakesIn(pools, f)| + 1
  {
    if f == key.0 {
      assert StakesIn(pools[key := pool], f) == StakesIn(pools, f)[key := 0];
      SumInsert(StakesIn(pools, f), key, 0);
      CardInsert(StakesIn(pools, f), key, 0);
    } else {
      assert StakesIn(pools[key := pool], f) == StakesIn(pools, f);
    }
  }

  lemma FarmAfterAdd(s: State, key: Key, pair: AssetPair, pool: Pool, f: PoolId)
    requires FarmsOK(s) && key.0 in s.farms && key !in s.pools && pool.stake == 0 && f in s.farms
    ensures FarmInv(WithPool(s, key, pair, pool), f)
  {
    hide Elapsed, PacingOK, StakesIn;
    assert FarmInv(s, f);
    StakesOnAdd(s.pools, key, pool, f);
    if f != key.0 {
      FarmFrame(s, WithPool(s, key, pair, pool), f);
    } else {
      PacingIgnoresTotals(s.farms[f], WithPool(s, key, pair, pool).farms[f], s.audit[f], Now(s, f));
    }
  }

  lemma AddKeepsInv(cfg: Config, s: State, key: Key, pair: AssetPair, pool: Pool)
    requires Inv(cfg, s) && key.0 in s.farms && s.farms[key.0].blocksPerPeriod > 0
    requires key !in s.pools && key == (key.0, AmmOf(pair))
    requires s.poolSeq + 1 <= MAX_U32
    requires pool == NewPool(s.poolSeq + 1, Now(s, key.0), pool.curve, pool.multiplier)
    requires NoStale(s.meta, key)
    ensures Inv(cfg, WithPool(s, key, pair, pool))
  {
    hide Elapsed, PoolOK, FarmInv, LinksOK, NftsOK;
    var s' := WithPool(s, key, pair, pool);
    NewPoolStructure(s, key, pair, pool);
    NewPoolInv(cfg, s, key, pair, pool);
    forall k | k in s'.pools
      ensures PoolInv(cfg, s', k)
    {
      if k != key {
        IdsDistinct(s, k, k);
        assert PoolInv(cfg, s, k);
        PoolFrame(cfg, s, s', k);
      }
    }
    forall f | f in s'.farms
      ensures FarmInv(s', f)
    {
      FarmAfterAdd(s, key, pair, pool, f);
    }
  }

  /** Exactly when links survive adding a pool: iff no stale metadata names its farm and AMM. */
  lemma AddLinksIffNoStale(s: State, key: Key, pair: AssetPair, pool: Pool)
    requires StructureOK(s) && key.0 in s.farms && key !in s.pools && key == (key.0, AmmOf(pair))
    requires pool.id == s.poolSeq + 1 <= MAX_U32
    ensures StructureOK(WithPool(s, key, pair, pool)) <==> NoStale(s.meta, key)
  {
    var s' := WithPool(s, key, pair, pool);
    if NoStale(s.meta, key) {
      NewPoolStructure(s, key, pair, pool);
    } else {
      var p :| p in s.meta && KeyOf(s.meta[p]) == key;
      assert Ids(s'.pools)[key] == pool.id;
      assert !Linked(Ids(s'.pools), s'.meta, p);
    }
  }

  // Removing a pool.

  lemma RemovedStructure(s: State, key: Key, ledger: Ledger)
    requires StructureOK(s) && key in s.pools && key.0 in s.farms && s.farms[key.0].livePools > 0
    ensures StructureOK(WithoutPool(s, key, ledger))
  {
    hide DecodePool;
    var s', id := WithoutPool(s, key, ledger), s.pools[key].id;
    assert s'.farms.Keys == s.farms.Keys;
    assert Ids(s.pools)[key] == id;
    assert CountOK(s.deposits.Keys, s.meta, id, s.pools.Keys);
    forall k | k in Ids(s'.pools)
      ensures k.0 in s'.farms && Ids(s'.pools)[k] in s'.meta && KeyOf(s'.meta[Ids(s'.pools)[k]]) == k
    {
      IdsDistinct(s, k, key);
      assert Ids(s.pools)[k] == Ids(s'.pools)[k];
    }
    forall p | p in s'.meta
      ensures Linked(Ids(s'.pools), s'.meta, p)
    {
      assert Linked(Ids(s.pools), s.meta, p);
    }
    forall n | n in s'.deposits.Keys
      ensures NftOK(n, s'.meta.Keys, s'.nftSeq)
    {
      assert NftOK(n, s.meta.Keys, s.nftSeq);
      assert DecodePool(n) == Some(id) ==> n in NftsOf(s.deposits.Keys, id);
    }
    forall p | p in s'.meta
      ensures CountOK(s'.deposits.Keys, s'.meta, p, s'.pools.Keys)
    {
      assert CountOK(s.deposits.Keys, s.meta, p, s.pools.Keys);
      assert Linked(Ids(s.pools), s.meta, p);
    }
  }

  lemma StakesOnRemove(pools: map<Key, Pool>, key: Key, f: PoolId)
    requires key in pools && pools[key].stake == 0
    ensures f != key.0 ==> StakesIn(pools - {key}, f) == StakesIn(pools, f)
    ensures f == key.0 ==> Sum(StakesIn(pools - {key}, f)) == Sum(StakesIn(pools, f))
    ensures f == key.0 ==> |StakesIn(pools - {key}, f)| == |StakesIn(pools, f)| - 1
  {
    if f == key.0 {
      assert StakesIn(pools - {key}, f) == StakesIn(pools, f) - {key};
      SumRemove(StakesIn(pools, f), key);
      CardRemove(StakesIn(pools, f), key);
    } else {
      assert StakesIn(pools - {key}, f) == StakesIn(pools, f);
    }
  }

  /** A farm with a stored pool counts it. */
  lemma LivePoolCounted(cfg: Config, s: State, key: Key)
    requires Inv(cfg, s) && key in s.pools && key.0 in s.farms
    ensures s.farms[key.0].livePools > 0
  {
    hide PoolInv, PacingOK;
    assert FarmInv(s, key.0);
    assert key in StakesIn(s.pools, key.0);
  }

  lemma FarmAfterRemove(s: State, key: Key, ledger: Ledger, f: PoolId)
    requires FarmsOK(s) && key in s.pools && s.pools[key].stake == 0
    requires key.0 in s.farms && s.farms[key.0].livePools > 0 && f in s.farms
    ensures FarmInv(WithoutPool(s, key, ledger), f)
  {
    hide Elapsed, PacingOK, StakesIn;
    assert FarmInv(s, f);
    StakesOnRemove(s.pools, key, f);
    if f != key.0 {
      FarmFrame(s, WithoutPool(s, key, ledger), f);
    } else {
      PacingIgnoresTotals(s.farms[f], WithoutPool(s, key, ledger).farms[f], s.audit[f], Now(s, f));
    }
  }

  lemma RemoveKeepsInv(cfg: Config, s: State, key: Key, ledger: Ledger)
    requires Inv(cfg, s) && key in s.pools && s.pools[key].canceled
    requires key.0 in s.farms && s.farms[key.0].livePools > 0
    requires forall a, p :: p != s.pools[key].id ==> Free(s.ledger, a, MiningPool(p)) <= Free(ledger, a, MiningPool(p))
    ensures Inv(cfg, WithoutPool(s, key, ledger))
  {
    hide Elapsed, FarmInv, LinksOK, NftsOK, Total, DepositsOK, Solvent, TotalsOK;
    var s' := WithoutPool(s, key, ledger);
    RemovedStructure(s, key, ledger);
    assert PoolInv(cfg, s, key);
    OtherPools(cfg, s, s', key);
    forall f | f in s'.farms
      ensures FarmInv(s', f)
    {
      FarmAfterRemove(s, key, ledger, f);
    }
  }

  // Farms and the environment.

  /** Pools see nothing of farms that are not theirs. */
  lemma PoolsAmongFarms(cfg: Config, s: State, s': State)
    requires Inv(cfg, s)
    requires s' == s.(poolSeq := s'.poolSeq, farms := s'.farms, ledger := s'.ledger, audit := s'.audit)
    requires forall k :: k in s.pools && k.0 in s.farms ==> k.0 in s'.farms && s'.farms[k.0] == s.farms[k.0]
    requires forall c, p :: p !in s.farms ==> Free(s.ledger, c, MiningPool(p)) <= Free(s'.ledger, c, MiningPool(p))
    ensures PoolsOK(cfg, s')
  {
    hide Elapsed, PoolOK, FarmInv, NftsOK, LinksOK;
    forall k | k in s'.pools
      ensures PoolInv(cfg, s', k)
    {
      IdsDistinct(s, k, k);
      assert PoolInv(cfg, s, k);
      PoolFrame(cfg, s, s', k);
    }
  }

  lemma CreatedStructure(s: State, id: PoolId, farm: Farm, a: Audit, ledger: Ledger)
    requires StructureOK(s) && id == s.poolSeq + 1 <= MAX_U32
    ensures StructureOK(WithFarm(s, id, farm, a, ledger))
    ensures forall k :: k in s.pools ==> k.0 in s.farms && k.0 != id
  {
    hide NftsOK;
    var s' := WithFarm(s, id, farm, a, ledger);
    assert s'.farms.Keys == s.farms.Keys + {id} && s'.audit.Keys == s.audit.Keys + {id};
    assert Ids(s.pools).Keys == s.pools.Keys;
  }

  lemma CreateKeepsInv(cfg: Config, s: State, id: PoolId, farm: Farm, a: Audit, ledger: Ledger)
    requires Inv(cfg, s) && id == s.poolSeq + 1 <= MAX_U32
    requires farm.blocksPerPeriod > 0 && PacingOK(farm, a, Elapsed(s.block, farm.blocksPerPeriod))
    requires farm.totalSharesZ == 0 && farm.livePools == 0
    requires forall c, p :: Free(s.ledger, c, MiningPool(p)) <= Free(ledger, c, MiningPool(p))
    ensures Inv(cfg, WithFarm(s, id, farm, a, ledger))
  {
    hide Elapsed, PacingOK, PoolInv, StructureOK;
    var s' := WithFarm(s, id, farm, a, ledger);
    CreatedStructure(s, id, farm, a, ledger);
    PoolsAmongFarms(cfg, s, s');
    forall f | f in s'.farms
      ensures FarmInv(s', f)
    {
      if f != id {
        assert FarmInv(s, f);
        FarmFrame(s, s', f);
      } else {
        assert StakesIn(s'.pools, id) == map[];
      }
    }
  }

  lemma DestroyedStructure(s: State, id: PoolId)
    requires StructureOK(s) && id in s.farms && FarmInv(s, id) && s.farms[id].livePools == 0
    ensures StructureOK(WithoutFarm(s, id))
    ensures forall k :: k in s.pools ==> k.0 in s.farms && k.0 != id
  {
    hide NftsOK, PacingOK;
    var s' := WithoutFarm(s, id);
    forall k | k in s.pools
      ensures k.0 != id
    {
      assert k.0 == id ==> k in StakesIn(s.pools, id);
    }
    assert Ids(s.pools).Keys == s.pools.Keys;
    assert s'.farms.Keys == s.farms.Keys - {id};
  }

  lemma DestroyKeepsInv(cfg: Config, s: State, id: PoolId)
    requires Inv(cfg, s) && id in s.farms && s.farms[id].livePools == 0
    ensures Inv(cfg, WithoutFarm(s, id))
  {
    hide Elapsed, PacingOK, PoolInv, StructureOK;
    var s' := WithoutFarm(s, id);
    assert FarmInv(s, id);
    DestroyedStructure(s, id);
    PoolsAmongFarms(cfg, s, s');
    forall f | f in s'.farms
      ensures FarmInv(s', f)
    {
      assert FarmInv(s, f);
      FarmFrame(s, s', f);
    }
  }

  /** Other pallets and time: no account of a stored pool loses funds. */
  lemma EnvironmentKeepsInv(cfg: Config, s: State, s': State)
    requires Inv(cfg, s)
    requires s' == s.(ledger := s'.ledger, amms := s'.amms, block := s'.block, owners := s'.owners)
    requires s.block <= s'.block && s'.owners.Keys == s.owners.Keys
    requires forall a, k :: k in s.pools ==>
               Free(s.ledger, a, MiningPool(s.pools[k].id)) <= Free(s'.ledger, a, MiningPool(s.pools[k].id))
    ensures Inv(cfg, s')
  {
    hide Elapsed, PacingOK, PoolOK, DecodePool, FarmInv;
    FarmsUnchanged(s, s');
    forall k | k in s'.pools
      ensures PoolInv(cfg, s', k)
    {
      IdsDistinct(s, k, k);
      assert PoolInv(cfg, s, k);
      PoolFrame(cfg, s, s', k);
    }
  }
}
